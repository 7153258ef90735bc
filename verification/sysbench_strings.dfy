/** The template strings of the sysbench benchmarks: GenString, CString and
    PadString of benchmarks/sysbench/utils.go, and SysbenchString, the
    buffer-filling copy of GenString in benchmarks/sysbench/sysbench.go and
    benchmarks/sysbenchload/sysbenchload.go. A template is a byte string in
    which '#' stands for a random digit and '@' for a random lower-case
    letter; every other byte is copied. */
module SysbenchStrings {
  import opened Runtime

  const Nums: seq<byte> := "0123456789"
  const Alpha: seq<byte> := "abcdefghijklmnopqrstuvwxyz"

  predicate IsDigit(c: byte) {
    '0' <= c <= '9'
  }

  predicate IsLower(c: byte) {
    'a' <= c <= 'z'
  }

  predicate IsPlaceholder(t: byte) {
    t == '#' || t == '@'
  }

  /** c is an acceptable output for template byte t. */
  predicate Fits(t: byte, c: byte) {
    if t == '#' then IsDigit(c) else if t == '@' then IsLower(c) else c == t
  }

  lemma AlphabetsAreClasses()
    ensures forall i :: 0 <= i < |Nums| ==> IsDigit(Nums[i])
    ensures forall i :: 0 <= i < |Alpha| ==> IsLower(Alpha[i])
  {
  }

  /** One template position: a placeholder consumes one draw
      (rand.Int31n over the length of its alphabet), anything else none. */
  function GenChar(t: byte, r: Rand): (res: (byte, Rand))
    ensures Fits(t, res.0)
    ensures res.1.stream == r.stream
    ensures res.1.pos == if IsPlaceholder(t) then r.pos + 1 else r.pos
  {
    AlphabetsAreClasses();
    if t == '#' then
      var (k, r') := Intn(r, |Nums|);
      (Nums[k], r')
    else if t == '@' then
      var (k, r') := Intn(r, |Alpha|);
      (Alpha[k], r')
    else
      (t, r)
  }

  /** The number of placeholders in a template: the draws one generation
      consumes. */
  function Placeholders(t: seq<byte>): nat {
    if |t| == 0 then 0
    else Placeholders(t[..|t| - 1]) + (if IsPlaceholder(t[|t| - 1]) then 1 else 0)
  }

  /** GenString: the template is walked from left to right, appending one
      byte per position. */
  function GenString(template: seq<byte>, r: Rand): (res: (seq<byte>, Rand))
    ensures |res.0| == |template|
    ensures forall i :: 0 <= i < |template| ==> Fits(template[i], res.0[i])
    ensures res.1.stream == r.stream
    ensures res.1.pos == r.pos + Placeholders(template)
  {
    if |template| == 0 then ([], r)
    else
      var (prefix, r1) := GenString(template[..|template| - 1], r);
      var (c, r2) := GenChar(template[|template| - 1], r1);
      (prefix + [c], r2)
  }

  /** Generation is prefix-closed: the first k bytes of the output are the
      output for the first k bytes of the template. */
  lemma {:induction false} GenStringPrefix(template: seq<byte>, r: Rand, k: nat)
    requires k <= |template|
    ensures GenString(template, r).0[..k] == GenString(template[..k], r).0
  {
    if k < |template| {
      var t' := template[..|template| - 1];
      assert t'[..k] == template[..k];
      GenStringPrefix(t', r, k);
      var (prefix, r1) := GenString(t', r);
      assert GenString(template, r).0[..k] == prefix[..k];
    } else {
      assert template[..k] == template;
    }
  }

  /** The independent description of GenString: byte i is what GenChar makes
      of template byte i with the draw after the placeholders before it. */
  lemma GenStringPointwise(template: seq<byte>, r: Rand, i: nat)
    requires i < |template|
    ensures GenString(template, r).0[i]
      == GenChar(template[i], Rand(r.stream, r.pos + Placeholders(template[..i]))).0
  {
    GenStringPrefix(template, r, i + 1);
    var t := template[..i + 1];
    assert t[..|t| - 1] == template[..i];
    var (prefix, r1) := GenString(template[..i], r);
    assert r1 == Rand(r.stream, r.pos + Placeholders(template[..i]));
    assert GenString(template, r).0[i] == GenString(template, r).0[..i + 1][i];
  }

  /** A template without placeholders is copied and costs no draw. */
  lemma {:induction false} GenStringLiteral(template: seq<byte>, r: Rand)
    requires forall i :: 0 <= i < |template| ==> !IsPlaceholder(template[i])
    ensures GenString(template, r) == (template, r)
  {
    if |template| > 0 {
      var t' := template[..|template| - 1];
      GenStringLiteral(t', r);
      assert t' + [template[|template| - 1]] == template;
    }
  }

  /** Go's `+=` on a byte wraps modulo 256. */
  function AddByte(a: byte, b: byte): (c: byte)
    ensures a == 0 as char ==> c == b
  {
    ((a as int + b as int) % 256) as char
  }

  /** SysbenchString: a zeroed buffer of the template's length is filled in
      place, with `=` for digits and `+=` for letters and copied bytes. On a
      zeroed byte the two agree, so the result is GenString's. */
  method SysbenchString(template: seq<byte>, r: Rand) returns (s: seq<byte>, r': Rand)
    ensures (s, r') == GenString(template, r)
  {
    var bytes: seq<byte> := seq(|template|, _ => 0 as char);
    r' := r;
    var i := 0;
    while i < |template|
      invariant 0 <= i <= |template| && |bytes| == |template|
      invariant (bytes[..i], r') == GenString(template[..i], r)
      invariant forall j :: i <= j < |template| ==> bytes[j] == 0 as char
    {
      assert template[..i + 1][..i] == template[..i];
      var c;
      if template[i] == '#' {
        var draw := Intn(r', |Nums|);
        var k := draw.0;
        r' := draw.1;
        c := Nums[k];
        bytes := bytes[i := c];
      } else if template[i] == '@' {
        var draw := Intn(r', |Alpha|);
        var k := draw.0;
        r' := draw.1;
        c := AddByte(bytes[i], Alpha[k]);
        bytes := bytes[i := c];
      } else {
        c := AddByte(bytes[i], template[i]);
        bytes := bytes[i := c];
      }
      assert bytes[..i + 1] == bytes[..i] + [c];
      i := i + 1;
    }
    assert bytes[..i] == bytes && template[..i] == template;
    s := bytes;
  }

  /** One group of the templates: eleven digits. */
  const Group: seq<byte> := "###########"

  /** n groups joined by '-'. */
  function Template(n: nat): (t: seq<byte>)
    requires n > 0
    ensures |t| == 12 * n - 1
  {
    if n == 1 then Group else Template(n - 1) + "-" + Group
  }

  /** ctemplate: ten groups. */
  const CTemplate: seq<byte> := Template(10)

  /** padtemplate: five groups. */
  const PadTemplate: seq<byte> := Template(5)

  /** Every byte of Group is a placeholder. */
  lemma {:induction false} AllPlaceholders(t: seq<byte>)
    requires forall i :: 0 <= i < |t| ==> IsPlaceholder(t[i])
    ensures Placeholders(t) == |t|
  {
    if |t| > 0 {
      AllPlaceholders(t[..|t| - 1]);
    }
  }

  /** The layout of a template: a '-' after every eleven digits, '#'
      everywhere else. For n = 10 and n = 5 this is the ctemplate and
      padtemplate literal. */
  lemma {:induction false} TemplateAt(n: nat, i: nat)
    requires n > 0 && i < |Template(n)|
    ensures Template(n)[i] == if i % 12 == 11 then '-' else '#'
  {
    if n > 1 {
      var p := Template(n - 1);
      assert Template(n) == p + "-" + Group;
      if i < |p| {
        TemplateAt(n - 1, i);
      } else if i == |p| {
        Arith.DivModUnique(i, 12, n - 2, 11);
      } else {
        Arith.DivModUnique(i, 12, n - 1, i - |p| - 1);
      }
    } else {
      Arith.DivModUnique(i, 12, 0, i);
    }
  }

  lemma TemplateLayout(n: nat)
    requires n > 0
    ensures forall i :: 0 <= i < |Template(n)| ==> (Template(n)[i] == '-' <==> i % 12 == 11)
    ensures forall i :: 0 <= i < |Template(n)| ==> (Template(n)[i] == '#' <==> i % 12 != 11)
  {
    forall i | 0 <= i < |Template(n)|
      ensures Template(n)[i] == if i % 12 == 11 then '-' else '#'
    {
      TemplateAt(n, i);
    }
  }

  /** A template of n groups has 11 * n placeholders. */
  lemma {:induction false} TemplatePlaceholders(n: nat)
    requires n > 0
    ensures Placeholders(Template(n)) == 11 * n
  {
    AllPlaceholders(Group);
    if n > 1 {
      TemplatePlaceholders(n - 1);
      var p := Template(n - 1);
      assert Template(n) == p + "-" + Group;
      PlaceholdersAppend(p + "-", Group);
      PlaceholdersAppend(p, "-");
      assert Placeholders(p + "-") == Placeholders(p) by {
        assert (p + "-")[..|p + "-"| - 1] == p;
      }
    }
  }

  lemma {:induction false} PlaceholdersAppend(a: seq<byte>, b: seq<byte>)
    ensures Placeholders(a + b) == Placeholders(a) + Placeholders(b)
  {
    if |b| > 0 {
      var b' := b[..|b| - 1];
      PlaceholdersAppend(a, b');
      assert (a + b)[..|a + b| - 1] == a + b';
    } else {
      assert a + b == a;
    }
  }

  /** CString. */
  function CString(r: Rand): (res: (seq<byte>, Rand))
    ensures res == GenString(CTemplate, r)
  {
    GenString(CTemplate, r)
  }

  /** PadString. */
  function PadString(r: Rand): (res: (seq<byte>, Rand))
    ensures res == GenString(PadTemplate, r)
  {
    GenString(PadTemplate, r)
  }

  /** The shape of a generated template string: digits exactly where the
      template has '#', and '-' elsewhere; one draw per digit. */
  lemma GeneratedShape(n: nat, r: Rand)
    requires n > 0
    ensures var (s, r') := GenString(Template(n), r);
      && |s| == 12 * n - 1
      && (forall i :: 0 <= i < |s| ==> (IsDigit(s[i]) <==> i % 12 != 11))
      && (forall i :: 0 <= i < |s| ==> (s[i] == '-' <==> i % 12 == 11))
      && r'.pos == r.pos + 11 * n
  {
    TemplateLayout(n);
    TemplatePlaceholders(n);
  }

  /** CString is 119 bytes, PadString 59, and they consume 110 and 55 draws. */
  lemma StringSizes(r: Rand)
    ensures |CString(r).0| == 119 && CString(r).1.pos == r.pos + 110
    ensures |PadString(r).0| == 59 && PadString(r).1.pos == r.pos + 55
  {
    GeneratedShape(10, r);
    GeneratedShape(5, r);
  }
}
