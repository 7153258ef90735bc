/** mongotools/createCollection.go: the older collection helpers.
    GetCollectionString, validCompressionType and getDefaultCreateOptions are
    the same as in mongotools/create_collection.go and are taken from the
    CreateCollection module. What differs: the server kind is detected once,
    by setIsTokuMX, into a global; createCollection reads that global and
    sends no reIndex; MakeCollections runs setIsTokuMX before its loop. */
module CreateCollectionLegacy {
  import opened Runtime
  import opened CreateCollection

  /** setIsTokuMX as written: after a successful buildInfo the global ends
      up true whatever the reply says, because the MongoDB branch assigns
      false and then falls through to the assignment of true. */
  function SetIsTokuMXAsWritten(s: Server): (r: Outcome<bool>)
    ensures r.Fatal? <==> s.fails(BuildInfo)
    ensures !r.Panic?
  {
    if s.fails(BuildInfo) then Fatal("Error when getting build info")
    else
      var isToku := if !s.isTokuMX then false else true;
      var isToku' := true;
      Ok(isToku')
  }

  /** The reply is ignored: the detected kind is TokuMX for every server,
      MongoDB included. */
  lemma SetIsTokuMXIgnoresReply(s: Server)
    requires !s.fails(BuildInfo)
    ensures SetIsTokuMXAsWritten(s) == Ok(true)
    ensures !s.isTokuMX ==> SetIsTokuMXAsWritten(s) != Ok(s.isTokuMX)
  {
  }

  /** setIsTokuMX as evidently intended: the global records whether the
      reply carries a tokumxVersion. */
  function SetIsTokuMX(s: Server): (r: Outcome<bool>)
    ensures r.Fatal? <==> s.fails(BuildInfo)
    ensures !r.Panic?
    ensures r.Ok? ==> r.value == s.isTokuMX
  {
    if s.fails(BuildInfo) then Fatal("Error when getting build info")
    else if !s.isTokuMX then Ok(false)
    else Ok(true)
  }

  /** What the older createCollection issues once the collection is known
      not to exist: the create command chosen by the global, then the
      indexes. */
  function CreatePlanLegacy(isToku: bool, coll: string, options: CreateOptions, indexes: seq<Index>): (p: seq<Command>)
    ensures |p| == |indexes| + 1
    ensures p[0] == if isToku then CreateToku(coll, options) else CreateMongo(coll)
    ensures forall i | 1 <= i < |p| :: p[i] == EnsureIndex(coll, indexes[i - 1])
  {
    [if isToku then CreateToku(coll, options) else CreateMongo(coll)] + EnsureIndexes(coll, indexes)
  }

  /** One collection of the loop. */
  function VisitLegacy(f: CreateFlags, isToku: bool, s: Server, coll: string, indexes: seq<Index>): (e: Effect)
    ensures !f.doCreate ==> e == Effect([QueryExists(coll)], Found(s, coll))
    ensures f.doCreate ==> (e.ok <==> (!s.fails(QueryExists(coll)) && !s.present(coll)
      && forall c | c in CreatePlanLegacy(isToku, coll, OptionsOf(f), indexes) :: !s.fails(c)))
  {
    var (q, found) := CollectionExists(s, coll);
    if !q.ok then q
    else if f.doCreate then
      if found then Effect(q.commands, false)
      else Then(q, Perform(s, CreatePlanLegacy(isToku, coll, OptionsOf(f), indexes)))
    else if !found then Effect(q.commands, false)
    else q
  }

  /** The visits of the older loop, collection 0 first. */
  function VisitsLegacy(f: CreateFlags, isToku: bool, s: Server, collname: string, k: nat, indexes: seq<Index>): (vs: seq<Effect>)
    ensures |vs| == k
  {
    seq(k, i requires 0 <= i < k => VisitLegacy(f, isToku, s, GetCollectionString(collname, i), indexes))
  }

  function VisitAllLegacy(f: CreateFlags, isToku: bool, s: Server, collname: string, k: nat, indexes: seq<Index>): Effect {
    Chain(VisitsLegacy(f, isToku, s, collname, k, indexes))
  }

  /** The older MakeCollections, given the outcome of the server detection:
      the compression check, buildInfo, then the loop. */
  function MakeCollectionsFrom(f: CreateFlags, s: Server, detected: Outcome<bool>, collname: string, numCollections: int, indexes: seq<Index>): (e: Effect)
    ensures !ValidCompressionType(f.compression) ==> e == Effect([], false)
    ensures ValidCompressionType(f.compression) ==> |e.commands| > 0 && e.commands[0] == BuildInfo
    ensures ValidCompressionType(f.compression) && !detected.Ok? ==> e == Effect([BuildInfo], false)
  {
    if !ValidCompressionType(f.compression) then Effect([], false)
    else if !detected.Ok? then Effect([BuildInfo], false)
    else if numCollections <= 0 then Effect([BuildInfo], true)
    else Then(Effect([BuildInfo], true), VisitAllLegacy(f, detected.value, s, collname, numCollections, indexes))
  }

  /** MakeCollections as written. */
  function MakeCollectionsAsWritten(f: CreateFlags, s: Server, collname: string, numCollections: int, indexes: seq<Index>): Effect {
    MakeCollectionsFrom(f, s, SetIsTokuMXAsWritten(s), collname, numCollections, indexes)
  }

  /** MakeCollections with the detection corrected. */
  function MakeCollections(f: CreateFlags, s: Server, collname: string, numCollections: int, indexes: seq<Index>): Effect {
    MakeCollectionsFrom(f, s, SetIsTokuMX(s), collname, numCollections, indexes)
  }

  /** A command agrees with the detected kind: no TokuMX create when the
      server was taken for MongoDB, and the other way round. */
  predicate KindOk(c: Command, isToku: bool) {
    (c.CreateToku? ==> isToku) && (c.CreateMongo? ==> !isToku)
  }

  predicate AllKindOk(cs: seq<Command>, isToku: bool) {
    forall i | 0 <= i < |cs| :: KindOk(cs[i], isToku)
  }

  lemma VisitKind(f: CreateFlags, isToku: bool, s: Server, coll: string, indexes: seq<Index>)
    ensures AllKindOk(VisitLegacy(f, isToku, s, coll, indexes).commands, isToku)
  {
    var plan := CreatePlanLegacy(isToku, coll, OptionsOf(f), indexes);
    assert AllKindOk(plan, isToku);
    var p := Perform(s, plan);
    assert AllKindOk(p.commands, isToku);
  }

  /** Every create command the loop issues is the kind the global names. */
  lemma LoopCreatesKind(f: CreateFlags, isToku: bool, s: Server, collname: string, k: nat, indexes: seq<Index>)
    ensures AllKindOk(VisitAllLegacy(f, isToku, s, collname, k, indexes).commands, isToku)
  {
    var vs := VisitsLegacy(f, isToku, s, collname, k, indexes);
    forall i, j | 0 <= i < |vs| && 0 <= j < |vs[i].commands|
      ensures KindOk(vs[i].commands[j], isToku)
    {
      VisitKind(f, isToku, s, GetCollectionString(collname, i), indexes);
    }
    ChainCommands(vs, c => KindOk(c, isToku));
  }

  /** As written, the benchmark never creates a plain MongoDB collection,
      not even on a MongoDB server. */
  lemma AsWrittenAlwaysCreatesToku(f: CreateFlags, s: Server, collname: string, numCollections: int, indexes: seq<Index>)
    ensures forall c | c in MakeCollectionsAsWritten(f, s, collname, numCollections, indexes).commands :: !c.CreateMongo?
  {
    var e := MakeCollectionsAsWritten(f, s, collname, numCollections, indexes);
    if ValidCompressionType(f.compression) && !s.fails(BuildInfo) && numCollections > 0 {
      LoopCreatesKind(f, true, s, collname, numCollections, indexes);
    }
    assert AllKindOk(e.commands, true);
  }

  /** Corrected, the created collections match the server. */
  lemma CreatesMatchServer(f: CreateFlags, s: Server, collname: string, numCollections: int, indexes: seq<Index>)
    ensures forall c | c in MakeCollections(f, s, collname, numCollections, indexes).commands ::
      (c.CreateToku? ==> s.isTokuMX) && (c.CreateMongo? ==> !s.isTokuMX)
  {
    var e := MakeCollections(f, s, collname, numCollections, indexes);
    if ValidCompressionType(f.compression) && !s.fails(BuildInfo) && numCollections > 0 {
      LoopCreatesKind(f, s.isTokuMX, s, collname, numCollections, indexes);
    }
    assert AllKindOk(e.commands, s.isTokuMX);
  }

  /** The input that shows the defect: a MongoDB server on which nothing
      exists and nothing fails, asked to create one collection. */
  lemma MongoServerGetsTokuCollection()
    ensures var s := Server(_ => false, false, _ => false);
      var f := DefaultFlags.(doCreate := true);
      && MakeCollectionsAsWritten(f, s, "c", 1, []).commands == [BuildInfo, QueryExists("c_0"), CreateToku("c_0", OptionsOf(f))]
      && MakeCollections(f, s, "c", 1, []).commands == [BuildInfo, QueryExists("c_0"), CreateMongo("c_0")]
  {
    var s := Server(_ => false, false, _ => false);
    var f := DefaultFlags.(doCreate := true);
    assert GetCollectionString("c", 0) == "c_0";
    assert EnsureIndexes("c_0", []) == [];
  }

  /** In verify mode the older loop behaves as the newer one: after
      buildInfo, collname_0, collname_1, ... are queried in order and the
      run survives iff they all exist. */
  lemma VerifyModeLegacy(f: CreateFlags, isToku: bool, s: Server, collname: string, k: nat, indexes: seq<Index>)
    requires !f.doCreate
    ensures VisitAllLegacy(f, isToku, s, collname, k, indexes) == VisitAll(f, s, collname, k, indexes)
  {
    var older := VisitsLegacy(f, isToku, s, collname, k, indexes);
    var newer := Visits(f, s, collname, k, indexes);
    assert older == newer;
  }
}
