/**
 * The plugin registry (Manager<T>): a table from a type id to the instance
 * of the capability T associated with it. Entries are added explicitly by
 * Register or, on a lookup that misses, by discovering an implementing class
 * in the package named by the type id and instantiating it.
 *
 * The classpath scan and the reflective constructor call are foreign code;
 * they enter the model as two oracles passed by the caller:
 *   discover:    the scan for a type id (the implementing classes, in the
 *                iteration order of the set the scan returned, or a scan that threw);
 *   instantiate: calling a class's no-argument constructor.
 */
module PluginManager {

  /** What the scan of the package named by a type id produced. */
  datatype Scan<C> =
    | Scanned(classes: seq<C>)   // the implementing classes, each once, in iteration order
    | ScanThrew                  // the scan raised an error; the helper thread logged it

  /** What calling a class's no-argument constructor reflectively produced. */
  datatype Instantiation<T> =
    | Instance(value: T)
    | NotInstantiable      // InstantiationException or IllegalAccessException
    | ConstructorThrew     // any other exception, raised by the constructor itself

  /** Why a lookup produced no instance. */
  datatype Failure<C> =
    | NoImplementation(typeId: string)                  // DempsyException: nothing to instantiate
    | NoDefaultConstructor(typeId: string, candidate: C) // DempsyException wrapping the reflection error
    | ConstructorFailed(candidate: C)                   // the constructor's own exception, passed through

  datatype Result<T, C> = Ok(instance: T) | Err(failure: Failure<C>)

  /** The classes discovery has to choose from: a scan that threw counts as one that found nothing. */
  function Candidates<C>(scan: Scan<C>): (r: seq<C>)
  {
    match scan
    case Scanned(classes) => classes
    case ScanThrew => []
  }

  /**
   * makeInstance once the scan is done: take the first candidate in
   * iteration order and instantiate it. More than one candidate only earns
   * a warning; no candidate, or a first candidate without a usable
   * constructor, is a failure.
   */
  function Materialize<T, C>(typeId: string, scan: Scan<C>, instantiate: C -> Instantiation<T>): (r: Result<T, C>)
    ensures r == Err(NoImplementation(typeId)) <==> Candidates(scan) == []
    ensures r.Ok? <==> Candidates(scan) != [] && instantiate(Candidates(scan)[0]).Instance?
    ensures r.Ok? ==> r.instance == instantiate(Candidates(scan)[0]).value
    ensures r.Err? && Candidates(scan) != [] ==>
              !r.failure.NoImplementation? && r.failure.candidate == Candidates(scan)[0] &&
              (r.failure.NoDefaultConstructor? <==> instantiate(Candidates(scan)[0]).NotInstantiable?) &&
              (r.failure.NoDefaultConstructor? ==> r.failure.typeId == typeId)
  {
    var classes := Candidates(scan);
    if |classes| == 0 then
      Err(NoImplementation(typeId))
    else
      var chosen := classes[0];
      match instantiate(chosen)
      case Instance(x) => Ok(x)
      case NotInstantiable => Err(NoDefaultConstructor(typeId, chosen))
      case ConstructorThrew => Err(ConstructorFailed(chosen))
  }

  /** The table after register(typeId, instance). */
  function Associate<T>(table: map<string, T>, typeId: string, instance: T): (t: map<string, T>)
    ensures typeId in t && t[typeId] == instance
    ensures t.Keys == table.Keys + {typeId}
    ensures forall id :: id in table && id != typeId ==> t[id] == table[id]
  {
    table[typeId := instance]
  }

  /**
   * One getAssociatedInstance call: its result, the table afterwards, and
   * whether discovery was consulted (the scan is used only on a miss).
   */
  datatype LookupOutcome<T, C> = LookupOutcome(result: Result<T, C>, table: map<string, T>, scanned: bool)

  function Lookup<T, C>(table: map<string, T>, typeId: string, scan: Scan<C>,
                        instantiate: C -> Instantiation<T>): (o: LookupOutcome<T, C>)
    // a hit returns the entry, changes nothing and does not discover
    ensures typeId in table ==> o == LookupOutcome(Ok(table[typeId]), table, false)
    // a miss discovers and materializes
    ensures typeId !in table ==> o.scanned && o.result == Materialize(typeId, scan, instantiate)
    // success is cached under typeId; a failure caches nothing
    ensures o.table == if o.result.Ok? then table[typeId := o.result.instance] else table
  {
    if typeId in table then
      LookupOutcome(Ok(table[typeId]), table, false)
    else
      var made := Materialize(typeId, scan, instantiate);
      if made.Ok? then LookupOutcome(made, Associate(table, typeId, made.instance), true)
      else LookupOutcome(made, table, true)
  }

  /** After register(id, x), a lookup of id returns x without discovery and changes nothing. */
  lemma RegisterThenLookup<T, C>(table: map<string, T>, typeId: string, x: T,
                                 scan: Scan<C>, instantiate: C -> Instantiation<T>)
    ensures var t := Associate(table, typeId, x);
            Lookup(t, typeId, scan, instantiate) == LookupOutcome(Ok(x), t, false)
  {
  }

  /** Registering twice under one id: the later instance wins. */
  lemma RegisterOverrides<T, C>(table: map<string, T>, typeId: string, x: T, y: T,
                                scan: Scan<C>, instantiate: C -> Instantiation<T>)
    ensures Lookup(Associate(Associate(table, typeId, x), typeId, y), typeId, scan, instantiate).result == Ok(y)
  {
  }

  /** A lookup that succeeded is cached: the next lookup of that id returns the same instance and does not discover. */
  lemma SecondLookupHitsCache<T, C>(table: map<string, T>, typeId: string, first: Scan<C>, second: Scan<C>,
                                    instantiate: C -> Instantiation<T>)
    requires Lookup(table, typeId, first, instantiate).result.Ok?
    ensures var o := Lookup(table, typeId, first, instantiate);
            Lookup(o.table, typeId, second, instantiate) == LookupOutcome(o.result, o.table, false)
  {
  }

  /** A lookup that failed leaves the table as it was, so the next lookup of that id discovers again. */
  lemma FailedLookupRetries<T, C>(table: map<string, T>, typeId: string, first: Scan<C>, second: Scan<C>,
                                  instantiate: C -> Instantiation<T>)
    requires Lookup(table, typeId, first, instantiate).result.Err?
    ensures var o := Lookup(table, typeId, first, instantiate);
            o.table == table && Lookup(o.table, typeId, second, instantiate) == Lookup(table, typeId, second, instantiate)
    ensures Lookup(Lookup(table, typeId, first, instantiate).table, typeId, second, instantiate).scanned
  {
  }

  /** A scan that threw fails exactly like a scan that found nothing. */
  lemma ScanErrorIsNoImplementation<T, C>(typeId: string, instantiate: C -> Instantiation<T>)
    ensures Materialize(typeId, ScanThrew, instantiate) == Materialize(typeId, Scanned([]), instantiate)
    ensures Materialize(typeId, ScanThrew, instantiate) == Err(NoImplementation(typeId))
  {
  }

  /** Only the first candidate matters: further candidates never turn a success into a failure or change the instance. */
  lemma FirstCandidateWins<T, C>(typeId: string, first: C, rest: seq<C>, instantiate: C -> Instantiation<T>)
    ensures Materialize(typeId, Scanned([first] + rest), instantiate) == Materialize(typeId, Scanned([first]), instantiate)
  {
  }

  /**
   * The registry object. `registered` is the table the source guards with
   * its own lock; each method is one atomic step. `scans` records, oldest
   * first, the type ids for which discovery ran.
   */
  class Manager<T, C> {
    var registered: map<string, T>
    ghost var scans: seq<string>

    constructor ()
      ensures registered == map[] && scans == []
    {
      registered := map[];
      scans := [];
    }

    /** getAssociatedInstance: the registered entry, or a freshly discovered instance that is then cached. */
    method GetAssociatedInstance(typeId: string, discover: string -> Scan<C>,
                                 instantiate: C -> Instantiation<T>) returns (r: Result<T, C>)
      modifies this
      ensures var o := Lookup(old(registered), typeId, discover(typeId), instantiate);
              r == o.result && registered == o.table &&
              scans == old(scans) + (if o.scanned then [typeId] else [])
    {
      if typeId in registered {
        r := Ok(registered[typeId]);
      } else {
        r := MakeInstance(typeId, discover, instantiate);
        if r.Ok? {
          registered := registered[typeId := r.instance];
        }
      }
    }

    /** makeInstance: scan the package named by typeId, then materialize; the table is not touched. */
    method MakeInstance(typeId: string, discover: string -> Scan<C>,
                        instantiate: C -> Instantiation<T>) returns (r: Result<T, C>)
      modifies this
      ensures r == Materialize(typeId, discover(typeId), instantiate)
      ensures registered == old(registered) && scans == old(scans) + [typeId]
    {
      var scan := discover(typeId);
      scans := scans + [typeId];
      r := Materialize(typeId, scan, instantiate);
    }

    /** register: overwrite the entry for typeId; `overrode` is the event the source logs when an entry was replaced. */
    method Register(typeId: string, factory: T) returns (overrode: bool)
      modifies this
      ensures registered == Associate(old(registered), typeId, factory)
      ensures overrode <==> typeId in old(registered)
      ensures scans == old(scans)
    {
      overrode := typeId in registered;
      registered := registered[typeId := factory];
    }
  }
}
