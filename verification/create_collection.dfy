/** mongotools/create_collection.go: collection names, the compression
    whitelist, the default TokuMX create options, and the decisions of
    createCollection, MakeCollections and VerifyNotCreating. The server is an
    oracle: which collections exist, whether it is TokuMX, and which commands
    fail. Every failure ends in log.Fatal, so a run is the list of commands
    issued and whether it got to the end. */
module CreateCollection {
  import opened Runtime

  // ---------------------------------------------------------------------
  // names

  function DigitChar(d: nat): (c: char)
    requires d < 10
    ensures '0' <= c <= '9'
  {
    "0123456789"[d]
  }

  /** The decimal digits of n, most significant first, without leading
      zeros. */
  function DigitsOf(n: nat): (s: string)
    ensures |s| > 0 && forall i | 0 <= i < |s| :: '0' <= s[i] <= '9'
    ensures n >= 10 ==> s[0] != '0'
  {
    if n < 10 then [DigitChar(n)] else DigitsOf(n / 10) + [DigitChar(n % 10)]
  }

  /** fmt's %d: a '-' before the digits of a negative value. */
  function Decimal(i: int): (s: string)
    ensures |s| > 0 && (s[0] == '-' <==> i < 0)
  {
    if i < 0 then "-" + DigitsOf(-i) else DigitsOf(i)
  }

  /** GetCollectionString: the name of the i-th collection, "%s_%d". */
  function GetCollectionString(collname: string, i: int): (name: string)
    ensures name == collname + "_" + Decimal(i)
  {
    collname + "_" + Decimal(i)
  }

  /** Reading decimal digits back. */
  function ParseDigits(s: string): int {
    if |s| == 0 then 0 else ParseDigits(s[..|s| - 1]) * 10 + (s[|s| - 1] as int - '0' as int)
  }

  function ParseDecimal(s: string): int {
    if |s| > 0 && s[0] == '-' then -ParseDigits(s[1..]) else ParseDigits(s)
  }

  lemma {:induction false} DigitsRoundTrip(n: nat)
    ensures ParseDigits(DigitsOf(n)) == n
  {
    if n >= 10 {
      DigitsRoundTrip(n / 10);
      var s := DigitsOf(n);
      assert s[..|s| - 1] == DigitsOf(n / 10);
      Arith.DivMod(n, 10);
    }
  }

  /** %d is read back exactly. */
  lemma DecimalRoundTrip(i: int)
    ensures ParseDecimal(Decimal(i)) == i
  {
    if i < 0 {
      NegativeRoundTrip(i);
    } else {
      NaturalRoundTrip(i);
    }
  }

  lemma NegativeRoundTrip(i: int)
    requires i < 0
    ensures ParseDecimal(Decimal(i)) == i
  {
    DigitsRoundTrip(-i);
    ParseNegative(i);
  }

  lemma NaturalRoundTrip(i: nat)
    ensures ParseDecimal(Decimal(i)) == i
  {
    var d := DigitsOf(i);
    DigitsRoundTrip(i);
    ParseUnsigned(d);
    assert Decimal(i) == d;
  }

  lemma ParseNegative(i: int)
    requires i < 0
    ensures ParseDecimal(Decimal(i)) == -ParseDigits(DigitsOf(-i))
  {
    var d := DigitsOf(-i);
    var s := Decimal(i);
    assert s == "-" + d;
    assert s[1..] == d;
  }

  lemma ParseUnsigned(d: string)
    requires |d| > 0 && '0' <= d[0] <= '9'
    ensures ParseDecimal(d) == ParseDigits(d)
  {
  }

  /** Different indexes give different collection names, so the collections
      of a run are distinct. */
  lemma NamesDistinct(collname: string, i: int, j: int)
    requires i != j
    ensures GetCollectionString(collname, i) != GetCollectionString(collname, j)
  {
    var a := GetCollectionString(collname, i);
    var b := GetCollectionString(collname, j);
    if a == b {
      assert a[|collname| + 1..] == Decimal(i);
      assert b[|collname| + 1..] == Decimal(j);
      DecimalRoundTrip(i);
      DecimalRoundTrip(j);
    }
  }

  // ---------------------------------------------------------------------
  // options

  const Zlib: string := "zlib"
  const Quicklz: string := "quicklz"
  const Lzma: string := "lzma"
  const NoCompression: string := "none"

  /** validCompressionType. */
  predicate ValidCompressionType(c: string) {
    (c == Zlib || c == Quicklz || c == Lzma) || c == NoCompression
  }

  /** The whitelist is exactly the four names. */
  lemma CompressionWhitelist(c: string)
    ensures ValidCompressionType(c) <==> c in {"zlib", "quicklz", "lzma", "none"}
  {
  }

  /** The flags that steer collection creation. */
  datatype CreateFlags = CreateFlags(doCreate: bool, nodeSize: int, basementSize: int, compression: string, partition: bool)

  const DefaultFlags: CreateFlags := CreateFlags(false, 4 * 1024 * 1024, 64 * 1024, Zlib, false)

  /** tokuMXCreateOptions. */
  datatype CreateOptions = CreateOptions(compressionType: string, nodeSize: int, basementSize: int, partitioned: bool)

  /** Go's `x << k` on a 64-bit int. */
  function ShiftLeft(x: int64, k: nat): (r: int64)
    requires k < 64
  {
    var b := (ToUint64(x) as bv64) << k;
    if b as int < TWO_63 then b as int else b as int - TWO_64
  }

  /** getDefaultCreateOptions: zlib, 4 MB nodes, 64 KB basement nodes, not
      partitioned; the sizes are the flag defaults. */
  function DefaultCreateOptions(): (o: CreateOptions)
    ensures o == CreateOptions(Zlib, DefaultFlags.nodeSize, DefaultFlags.basementSize, DefaultFlags.partition)
    ensures ValidCompressionType(o.compressionType)
  {
    CreateOptions(Zlib, ShiftLeft(1, 22), ShiftLeft(1, 16), false)
  }

  /** The options MakeCollections passes to createCollection. */
  function OptionsOf(f: CreateFlags): CreateOptions {
    CreateOptions(f.compression, f.nodeSize, f.basementSize, f.partition)
  }

  // ---------------------------------------------------------------------
  // the server

  /** An index is named by its key. */
  type Index = seq<string>

  /** The commands issued to the server. */
  datatype Command =
    | QueryExists(coll: string)
    | CreateToku(coll: string, options: CreateOptions)
    | CreateMongo(coll: string)
    | EnsureIndex(coll: string, index: Index)
    | ReIndex(coll: string, options: CreateOptions)
    | BuildInfo

  /** The server's answers: which collections exist, whether it is TokuMX,
      and which commands return an error. */
  datatype Server = Server(present: string -> bool, isTokuMX: bool, fails: Command -> bool)

  /** What a sequence of steps did: the commands issued, and whether it ran
      to the end (false: it stopped in log.Fatal). */
  datatype Effect = Effect(commands: seq<Command>, ok: bool)

  /** Issue planned commands in order until one fails. */
  function Perform(s: Server, plan: seq<Command>): (e: Effect)
    ensures |e.commands| <= |plan| && e.commands == plan[..|e.commands|]
    ensures e.ok <==> forall i | 0 <= i < |plan| :: !s.fails(plan[i])
    ensures e.ok ==> e.commands == plan
    ensures !e.ok ==> (|e.commands| > 0 && s.fails(e.commands[|e.commands| - 1])
      && forall i | 0 <= i < |e.commands| - 1 :: !s.fails(e.commands[i]))
  {
    if |plan| == 0 then Effect([], true)
    else if s.fails(plan[0]) then Effect([plan[0]], false)
    else
      var rest := Perform(s, plan[1..]);
      assert forall i | 1 <= i < |plan| :: plan[i] == plan[1..][i - 1];
      Effect([plan[0]] + rest.commands, rest.ok)
  }

  function Then(a: Effect, b: Effect): Effect {
    if a.ok then Effect(a.commands + b.commands, b.ok) else a
  }

  /** collectionExists: a failed query is fatal. */
  function CollectionExists(s: Server, coll: string): (res: (Effect, bool))
    ensures res.0 == Effect([QueryExists(coll)], !s.fails(QueryExists(coll)))
    ensures res.0.ok ==> res.1 == s.present(coll)
  {
    (Effect([QueryExists(coll)], !s.fails(QueryExists(coll))), s.present(coll))
  }

  function EnsureIndexes(coll: string, indexes: seq<Index>): (plan: seq<Command>)
    ensures |plan| == |indexes| && forall k | 0 <= k < |indexes| :: plan[k] == EnsureIndex(coll, indexes[k])
  {
    if |indexes| == 0 then [] else EnsureIndexes(coll, indexes[..|indexes| - 1]) + [EnsureIndex(coll, indexes[|indexes| - 1])]
  }

  /** What createCollection issues once the collection is known not to
      exist: the create command, the indexes in order, and on TokuMX the
      reIndex that applies the options to every index. */
  function CreatePlan(s: Server, coll: string, options: CreateOptions, indexes: seq<Index>): seq<Command> {
    [if s.isTokuMX then CreateToku(coll, options) else CreateMongo(coll)]
    + EnsureIndexes(coll, indexes)
    + (if s.isTokuMX then [ReIndex(coll, options)] else [])
  }

  /** The collection was absent and every command creating it went
      through. */
  predicate Creatable(s: Server, coll: string, options: CreateOptions, indexes: seq<Index>) {
    && !s.fails(QueryExists(coll)) && !s.present(coll)
    && forall c | c in CreatePlan(s, coll, options, indexes) :: !s.fails(c)
  }

  /** The collection was found. */
  predicate Found(s: Server, coll: string) {
    !s.fails(QueryExists(coll)) && s.present(coll)
  }

  /** createCollection: an existing collection is fatal. */
  function CreateCollectionIn(s: Server, coll: string, options: CreateOptions, indexes: seq<Index>): (e: Effect)
    ensures e.ok <==> Creatable(s, coll, options, indexes)
    ensures e.ok ==> e.commands == [QueryExists(coll)] + CreatePlan(s, coll, options, indexes)
    ensures |e.commands| > 0 && e.commands[0] == QueryExists(coll)
  {
    var (q, found) := CollectionExists(s, coll);
    if !q.ok || found then Effect(q.commands, false)
    else Then(q, Perform(s, CreatePlan(s, coll, options, indexes)))
  }

  /** One collection of MakeCollections: created, or checked for. */
  function Visit(f: CreateFlags, s: Server, coll: string, indexes: seq<Index>): (e: Effect)
    ensures f.doCreate ==> e == CreateCollectionIn(s, coll, OptionsOf(f), indexes)
    ensures !f.doCreate ==> e == Effect([QueryExists(coll)], Found(s, coll))
  {
    if f.doCreate then CreateCollectionIn(s, coll, OptionsOf(f), indexes)
    else
      var (q, found) := CollectionExists(s, coll);
      if !q.ok || !found then Effect(q.commands, false) else q
  }

  /** A loop whose every step may end the program: the steps run in order
      until one of them stops in log.Fatal. */
  function Chain(es: seq<Effect>): Effect {
    if |es| == 0 then Effect([], true)
    else Then(Chain(es[..|es| - 1]), es[|es| - 1])
  }

  /** A loop survives iff every step does. */
  lemma {:induction false} ChainOk(es: seq<Effect>)
    ensures Chain(es).ok <==> forall i | 0 <= i < |es| :: es[i].ok
  {
    if |es| > 0 {
      var n := |es| - 1;
      ChainOk(es[..n]);
      assert forall i | 0 <= i < n :: es[..n][i] == es[i];
    }
  }

  /** A loop of one-command steps issues the steps' commands in order, up
      to and including the one that stopped it. */
  lemma {:induction false} ChainSingles(es: seq<Effect>, cmds: seq<Command>)
    requires |es| == |cmds| && forall i | 0 <= i < |es| :: es[i].commands == [cmds[i]]
    ensures |Chain(es).commands| <= |es|
    ensures Chain(es).ok ==> |Chain(es).commands| == |es|
    ensures forall i | 0 <= i < |Chain(es).commands| :: Chain(es).commands[i] == cmds[i]
  {
    if |es| > 0 {
      var n := |es| - 1;
      ChainSingles(es[..n], cmds[..n]);
      var prev := Chain(es[..n]);
      var e := Chain(es);
      assert e == Then(prev, es[n]);
      if prev.ok {
        assert e.commands == prev.commands + [cmds[n]];
        forall i | 0 <= i < |e.commands|
          ensures e.commands[i] == cmds[i]
        {
          if i < n {
            assert e.commands[i] == prev.commands[i] == cmds[..n][i];
          }
        }
      } else {
        forall i | 0 <= i < |e.commands|
          ensures e.commands[i] == cmds[i]
        {
          assert e.commands[i] == prev.commands[i] == cmds[..n][i];
        }
      }
    }
  }

  /** Every command of a loop is a command of one of its steps: a property
      of all the steps' commands holds of the loop's. */
  lemma {:induction false} ChainCommands(es: seq<Effect>, P: Command -> bool)
    requires forall i, j | 0 <= i < |es| && 0 <= j < |es[i].commands| :: P(es[i].commands[j])
    ensures forall j | 0 <= j < |Chain(es).commands| :: P(Chain(es).commands[j])
  {
    if |es| > 0 {
      var n := |es| - 1;
      assert forall i | 0 <= i < n :: es[..n][i] == es[i];
      ChainCommands(es[..n], P);
      var prev := Chain(es[..n]);
      var e := Chain(es);
      assert e == Then(prev, es[n]);
      if prev.ok {
        forall j | 0 <= j < |e.commands|
          ensures P(e.commands[j])
        {
          if j < |prev.commands| {
            assert e.commands[j] == prev.commands[j];
          } else {
            assert e.commands[j] == es[n].commands[j - |prev.commands|];
          }
        }
      }
    }
  }

  /** The visits of MakeCollections' loop, collection 0 first. */
  function Visits(f: CreateFlags, s: Server, collname: string, k: nat, indexes: seq<Index>): (vs: seq<Effect>)
    ensures |vs| == k
  {
    seq(k, i requires 0 <= i < k => Visit(f, s, GetCollectionString(collname, i), indexes))
  }

  /** The loop of MakeCollections over collections 0 .. k-1. */
  function VisitAll(f: CreateFlags, s: Server, collname: string, k: nat, indexes: seq<Index>): Effect {
    Chain(Visits(f, s, collname, k, indexes))
  }

  /** MakeCollections. A non-positive count visits nothing. */
  function MakeCollections(f: CreateFlags, s: Server, collname: string, numCollections: int, indexes: seq<Index>): (e: Effect)
    ensures !ValidCompressionType(f.compression) ==> e == Effect([], false)
    ensures ValidCompressionType(f.compression) && numCollections <= 0 ==> e == Effect([], true)
  {
    if !ValidCompressionType(f.compression) then Effect([], false)
    else if numCollections <= 0 then Effect([], true)
    else VisitAll(f, s, collname, numCollections, indexes)
  }

  /** In verify mode the collections are checked for in order, one query
      each, and the loop survives iff every one of them exists. */
  lemma VerifyModeVisitsInOrder(f: CreateFlags, s: Server, collname: string, k: nat, indexes: seq<Index>)
    requires !f.doCreate
    ensures var e := VisitAll(f, s, collname, k, indexes);
      && (e.ok <==> forall i | 0 <= i < k :: Found(s, GetCollectionString(collname, i)))
      && |e.commands| <= k
      && (e.ok ==> |e.commands| == k)
      && forall i | 0 <= i < |e.commands| :: e.commands[i] == QueryExists(GetCollectionString(collname, i))
  {
    var vs := Visits(f, s, collname, k, indexes);
    var cmds := seq(k, i requires 0 <= i < k => QueryExists(GetCollectionString(collname, i)));
    forall i | 0 <= i < k
      ensures vs[i] == Effect([cmds[i]], Found(s, GetCollectionString(collname, i)))
    {
    }
    ChainOk(vs);
    ChainSingles(vs, cmds);
  }

  /** The loop survives iff every visit does. */
  lemma VisitAllOk(f: CreateFlags, s: Server, collname: string, k: nat, indexes: seq<Index>)
    ensures VisitAll(f, s, collname, k, indexes).ok
      <==> forall i | 0 <= i < k :: Visit(f, s, GetCollectionString(collname, i), indexes).ok
  {
    var vs := Visits(f, s, collname, k, indexes);
    forall i | 0 <= i < k
      ensures vs[i] == Visit(f, s, GetCollectionString(collname, i), indexes)
    {
    }
    ChainOk(vs);
  }

  /** In create mode the loop survives iff every collection was absent and
      created without error. */
  lemma CreateModeSurvivors(f: CreateFlags, s: Server, collname: string, k: nat, indexes: seq<Index>)
    requires f.doCreate
    ensures VisitAll(f, s, collname, k, indexes).ok
      <==> forall i | 0 <= i < k :: Creatable(s, GetCollectionString(collname, i), OptionsOf(f), indexes)
  {
    VisitAllOk(f, s, collname, k, indexes);
    forall i | 0 <= i < k
      ensures Visit(f, s, GetCollectionString(collname, i), indexes).ok
        <==> Creatable(s, GetCollectionString(collname, i), OptionsOf(f), indexes)
    {
    }
  }

  /** MakeCollections in verify mode: with a valid compression type it
      queries collname_0, collname_1, ... in order and survives iff all of
      them exist; an invalid compression type is fatal before any query. */
  lemma MakeCollectionsVerifyMode(f: CreateFlags, s: Server, collname: string, numCollections: int, indexes: seq<Index>)
    requires !f.doCreate
    ensures var e := MakeCollections(f, s, collname, numCollections, indexes);
      && (e.ok <==> ValidCompressionType(f.compression) && forall i | 0 <= i < numCollections :: Found(s, GetCollectionString(collname, i)))
      && forall i | 0 <= i < |e.commands| :: e.commands[i] == QueryExists(GetCollectionString(collname, i))
  {
    if numCollections > 0 {
      VerifyModeVisitsInOrder(f, s, collname, numCollections, indexes);
    }
  }

  /** MakeCollections in create mode: with a valid compression type it
      survives iff every collection was absent and created without error. */
  lemma MakeCollectionsCreateMode(f: CreateFlags, s: Server, collname: string, numCollections: int, indexes: seq<Index>)
    requires f.doCreate
    ensures MakeCollections(f, s, collname, numCollections, indexes).ok
      <==> (ValidCompressionType(f.compression)
        && forall i | 0 <= i < numCollections :: Creatable(s, GetCollectionString(collname, i), OptionsOf(f), indexes))
  {
    if numCollections > 0 {
      CreateModeSurvivors(f, s, collname, numCollections, indexes);
    }
  }

  /** On TokuMX a created collection is a TokuMX collection with the flags'
      options, and its indexes get the same options afterwards; on MongoDB
      it is a plain collection and no reIndex is sent. */
  lemma CreatePlanShape(s: Server, coll: string, options: CreateOptions, indexes: seq<Index>)
    ensures var p := CreatePlan(s, coll, options, indexes);
      && p[0] == (if s.isTokuMX then CreateToku(coll, options) else CreateMongo(coll))
      && (ReIndex(coll, options) in p <==> s.isTokuMX)
      && p[|p| - 1] == (if s.isTokuMX then ReIndex(coll, options) else if |indexes| > 0 then EnsureIndex(coll, indexes[|indexes| - 1]) else CreateMongo(coll))
  {
    var p := CreatePlan(s, coll, options, indexes);
    var ix := EnsureIndexes(coll, indexes);
    if s.isTokuMX {
      assert p[|p| - 1] == ReIndex(coll, options);
    } else {
      assert p == [CreateMongo(coll)] + ix;
      assert forall c | c in ix :: c.EnsureIndex?;
    }
  }

  /** VerifyNotCreating: fatal iff -create is set. */
  function VerifyNotCreating(f: CreateFlags): (r: Outcome<()>)
    ensures r.Ok? <==> !f.doCreate
    ensures !r.Panic?
  {
    if f.doCreate then Fatal("-create must be false") else Ok(())
  }
}
