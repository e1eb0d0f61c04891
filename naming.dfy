// The sampler-uniform naming of `Mesh::Draw` (src/mesh.cpp): every texture,
// in storage order, gets its tag followed by the post-incremented counter of
// its kind; a tag that names none of the three kinds is used bare.

module Naming {
  import opened Records
  import opened Text

  /** The three per-kind counters, `unsigned int` each. */
  datatype Counters = Counters(diffuse: U32, specular: U32, normal: U32)

  /** `x++` on an `unsigned int`: wraps to 0 past the largest value. */
  function Increment(x: U32): (r: U32)
    ensures r == (x + 1) % U32Modulus
  {
    if x == U32Modulus - 1 then 0 else x + 1
  }

  /** The start values the corrected code would use for all three counters. */
  const FromOne: Counters := Counters(1, 1, 1)

  /** The counters after the texture tag `kind` has been named. */
  function Advance(c: Counters, kind: string): Counters
  {
    if kind == DiffuseTag then c.(diffuse := Increment(c.diffuse))
    else if kind == SpecularTag then c.(specular := Increment(c.specular))
    else if kind == NormalTag then c.(normal := Increment(c.normal))
    else c
  }

  /** The counters after naming every texture of `ts` in order. */
  function CountersAfter(ts: seq<Texture>, c0: Counters): Counters
  {
    if ts == [] then c0 else Advance(CountersAfter(ts[..|ts| - 1], c0), ts[|ts| - 1].kind)
  }

  /** The number appended to a tag: the current counter of its kind, or
      nothing for a tag that is none of the three kinds. */
  function Number(kind: string, c: Counters): string
  {
    if kind == DiffuseTag then DecimalString(c.diffuse)
    else if kind == SpecularTag then DecimalString(c.specular)
    else if kind == NormalTag then DecimalString(c.normal)
    else ""
  }

  /** The uniform name of a texture tagged `kind` under counters `c`. */
  function NameFor(kind: string, c: Counters): string
  {
    kind + Number(kind, c)
  }

  predicate KnownKind(kind: string)
  {
    kind == DiffuseTag || kind == SpecularTag || kind == NormalTag
  }

  /** The uniform names, one per texture, in storage order. */
  function SamplerNames(ts: seq<Texture>, c0: Counters): (r: seq<string>)
    ensures |r| == |ts|
  {
    if ts == [] then []
    else
      var init := ts[..|ts| - 1];
      SamplerNames(init, c0) + [NameFor(ts[|ts| - 1].kind, CountersAfter(init, c0))]
  }

  /** How many textures of `ts` carry the tag `kind`. */
  function Occurrences(ts: seq<Texture>, kind: string): nat
  {
    if ts == [] then 0
    else Occurrences(ts[..|ts| - 1], kind) + (if ts[|ts| - 1].kind == kind then 1 else 0)
  }

  /** `setInt(names[i], i)` for every i in order: a later call on the same
      name overwrites an earlier one. */
  function ApplyUniforms(u: map<string, int>, names: seq<string>): map<string, int>
  {
    if names == [] then u
    else ApplyUniforms(u, names[..|names| - 1])[names[|names| - 1] := |names| - 1]
  }

  /** The last position of `x` in `s`. */
  function LastPosition(s: seq<string>, x: string): (r: nat)
    requires x in s
    ensures r < |s| && s[r] == x && forall j :: r < j < |s| ==> s[j] != x
  {
    if s[|s| - 1] == x then |s| - 1
    else
      assert s == s[..|s| - 1] + [s[|s| - 1]];
      LastPosition(s[..|s| - 1], x)
  }

  /** The counter that numbers textures tagged with a known kind. */
  function Counter(c: Counters, kind: string): U32
    requires KnownKind(kind)
  {
    if kind == DiffuseTag then c.diffuse
    else if kind == SpecularTag then c.specular
    else c.normal
  }

  /** Naming a texture advances its own kind's counter by one, modulo
      2^32, and leaves the other two alone. */
  lemma AdvanceCounter(c: Counters, kind: string, other: string)
    requires KnownKind(other)
    ensures Counter(Advance(c, kind), other)
         == if kind == other then (Counter(c, other) + 1) % U32Modulus else Counter(c, other)
  {
  }

  /** Each counter has advanced by the number of textures of its kind,
      modulo 2^32, independently of the other kinds. */
  lemma {:induction false} CountersCount(ts: seq<Texture>, c0: Counters, kind: string)
    requires KnownKind(kind)
    ensures Counter(CountersAfter(ts, c0), kind) == (Counter(c0, kind) + Occurrences(ts, kind)) % U32Modulus
  {
    if ts != [] {
      var init := ts[..|ts| - 1];
      CountersCount(init, c0, kind);
      AdvanceCounter(CountersAfter(init, c0), ts[|ts| - 1].kind, kind);
      var n := Counter(c0, kind) + Occurrences(init, kind);
      if ts[|ts| - 1].kind == kind {
        assert (n % U32Modulus + 1) % U32Modulus == (n + 1) % U32Modulus;
      }
    }
  }

  /** Texture i is named from the counters left by the textures before it. */
  lemma {:induction false} SamplerNamesAt(ts: seq<Texture>, c0: Counters, i: nat)
    requires i < |ts|
    ensures SamplerNames(ts, c0)[i] == NameFor(ts[i].kind, CountersAfter(ts[..i], c0))
  {
    var init := ts[..|ts| - 1];
    if i < |ts| - 1 {
      assert init[..i] == ts[..i];
      SamplerNamesAt(init, c0, i);
    } else {
      assert ts[..i] == init;
    }
  }

  /** The number a known kind's texture i is named with: the start value
      plus the earlier textures of that kind, modulo 2^32. */
  function NumberAt(ts: seq<Texture>, c0: Counters, i: nat): nat
    requires i < |ts| && KnownKind(ts[i].kind)
  {
    (Counter(c0, ts[i].kind) + Occurrences(ts[..i], ts[i].kind)) % U32Modulus
  }

  /** The name of texture i of a known kind is its tag followed by the
      count, from the start value and modulo 2^32, of earlier textures of
      the same kind. */
  lemma KnownKindName(ts: seq<Texture>, c0: Counters, i: nat)
    requires i < |ts| && KnownKind(ts[i].kind)
    ensures SamplerNames(ts, c0)[i] == ts[i].kind + DecimalString(NumberAt(ts, c0, i))
  {
    var k, c := ts[i].kind, CountersAfter(ts[..i], c0);
    SamplerNamesAt(ts, c0, i);
    CountersCount(ts[..i], c0, k);
    NameForKnown(k, c);
    assert Counter(c, k) == NumberAt(ts, c0, i);
  }

  /** A tag that names none of the three kinds is used alone. */
  lemma OtherKindName(ts: seq<Texture>, c0: Counters, i: nat)
    requires i < |ts| && !KnownKind(ts[i].kind)
    ensures SamplerNames(ts, c0)[i] == ts[i].kind
  {
    SamplerNamesAt(ts, c0, i);
  }

  lemma NameForKnown(kind: string, c: Counters)
    requires KnownKind(kind)
    ensures NameFor(kind, c) == kind + DecimalString(Counter(c, kind))
  {
  }

  /** Earlier textures of a kind are counted strictly fewer times. */
  lemma {:induction false} OccurrencesIncrease(ts: seq<Texture>, i: nat, j: nat)
    requires i < j <= |ts|
    ensures Occurrences(ts[..j], ts[i].kind) >= Occurrences(ts[..i], ts[i].kind) + 1
  {
    var k := ts[i].kind;
    assert ts[..j][..j - 1] == ts[..j - 1];
    if j - 1 > i {
      OccurrencesIncrease(ts, i, j - 1);
    } else {
      assert ts[..j - 1] == ts[..i];
    }
  }

  lemma {:induction false} OccurrencesMonotone(ts: seq<Texture>, i: nat, j: nat, kind: string)
    requires i <= j <= |ts|
    ensures Occurrences(ts[..i], kind) <= Occurrences(ts[..j], kind) <= j
  {
    if j > 0 {
      assert ts[..j][..j - 1] == ts[..j - 1];
      if i < j {
        OccurrencesMonotone(ts, i, j - 1, kind);
      } else {
        OccurrencesMonotone(ts, j - 1, j - 1, kind);
      }
    }
  }

  /** With counters starting at 1, the k-th texture of each kind is named
      with k: `texture_diffuse1`, `texture_diffuse2`, and so on. */
  lemma NumberingFromOne(ts: seq<Texture>, i: nat)
    requires i < |ts| < U32Modulus - 1
    requires KnownKind(ts[i].kind)
    ensures SamplerNames(ts, FromOne)[i] == ts[i].kind + DecimalString(1 + Occurrences(ts[..i], ts[i].kind))
  {
    NumberFromOne(ts, i);
    KnownKindName(ts, FromOne, i);
  }

  lemma NumberFromOne(ts: seq<Texture>, i: nat)
    requires i < |ts| < U32Modulus - 1
    requires KnownKind(ts[i].kind)
    ensures NumberAt(ts, FromOne, i) == 1 + Occurrences(ts[..i], ts[i].kind)
  {
    OccurrencesMonotone(ts, i, i, ts[i].kind);
  }

  /** Two textures of the same known kind get different names as long as
      that kind's counter does not wrap around. */
  lemma SameKindNamesDiffer(ts: seq<Texture>, c0: Counters, i: nat, j: nat)
    requires i < j < |ts| && ts[i].kind == ts[j].kind
    requires KnownKind(ts[i].kind)
    requires Counter(c0, ts[i].kind) + |ts| < U32Modulus
    ensures SamplerNames(ts, c0)[i] != SamplerNames(ts, c0)[j]
  {
    NumbersDiffer(ts, c0, i, j);
    KnownKindName(ts, c0, i);
    KnownKindName(ts, c0, j);
    NumberedNamesDiffer(ts[i].kind, NumberAt(ts, c0, i), NumberAt(ts, c0, j));
  }

  lemma NumbersDiffer(ts: seq<Texture>, c0: Counters, i: nat, j: nat)
    requires i < j < |ts| && ts[i].kind == ts[j].kind
    requires KnownKind(ts[i].kind)
    requires Counter(c0, ts[i].kind) + |ts| < U32Modulus
    ensures NumberAt(ts, c0, i) != NumberAt(ts, c0, j)
  {
    var k := ts[i].kind;
    OccurrencesIncrease(ts, i, j);
    OccurrencesMonotone(ts, j, j, k);
    var a := Counter(c0, k) + Occurrences(ts[..i], k);
    var b := Counter(c0, k) + Occurrences(ts[..j], k);
    assert a < b < U32Modulus;
    assert a % U32Modulus == a && b % U32Modulus == b;
  }

  lemma NumberedNamesDiffer(kind: string, a: nat, b: nat)
    requires a != b
    ensures kind + DecimalString(a) != kind + DecimalString(b)
  {
    if kind + DecimalString(a) == kind + DecimalString(b) {
      AppendCancel(kind, DecimalString(a), DecimalString(b));
      DecimalStringInjective(a, b);
    }
  }

  /** After the calls, a name used by some texture holds the unit of the
      last texture with that name; every other uniform is unchanged. */
  lemma {:induction false} ApplyUniformsValues(u: map<string, int>, names: seq<string>, x: string)
    ensures x in names ==> x in ApplyUniforms(u, names)
                           && ApplyUniforms(u, names)[x] == LastPosition(names, x)
    ensures x !in names ==> (x in ApplyUniforms(u, names) <==> x in u)
    ensures x !in names && x in u ==> ApplyUniforms(u, names)[x] == u[x]
  {
    if names != [] {
      var init := names[..|names| - 1];
      assert names == init + [names[|names| - 1]];
      ApplyUniformsValues(u, init, x);
    }
  }

  /** Naming texture i of `ts` extends the names of the textures before it
      and advances one counter. */
  lemma NamePrefixStep(ts: seq<Texture>, c0: Counters, i: nat)
    requires i < |ts|
    ensures SamplerNames(ts[..i + 1], c0) == SamplerNames(ts[..i], c0) + [NameFor(ts[i].kind, CountersAfter(ts[..i], c0))]
    ensures CountersAfter(ts[..i + 1], c0) == Advance(CountersAfter(ts[..i], c0), ts[i].kind)
  {
    assert ts[..i + 1][..i] == ts[..i];
  }

  lemma ApplyUniformsSnoc(u: map<string, int>, names: seq<string>, x: string)
    ensures ApplyUniforms(u, names + [x]) == ApplyUniforms(u, names)[x := |names|]
  {
    assert (names + [x])[..|names|] == names;
  }

  function Tex(kind: string): Texture
  {
    Texture(0, kind, "")
  }

  /** Naming one more texture extends the names by one and advances one
      counter. */
  lemma SamplerNamesSnoc(ts: seq<Texture>, t: Texture, c0: Counters)
    ensures SamplerNames(ts + [t], c0) == SamplerNames(ts, c0) + [NameFor(t.kind, CountersAfter(ts, c0))]
    ensures CountersAfter(ts + [t], c0) == Advance(CountersAfter(ts, c0), t.kind)
  {
    assert (ts + [t])[..|ts|] == ts;
  }

  /** The four uniform names of the example below. */
  lemma ExampleNameStrings()
    ensures NameFor(DiffuseTag, FromOne) == "texture_diffuse1"
    ensures NameFor(SpecularTag, Counters(2, 1, 1)) == "texture_specular1"
    ensures NameFor(DiffuseTag, Counters(2, 2, 1)) == "texture_diffuse2"
    ensures NameFor(DiffuseTag, Counters(3, 2, 1)) == "texture_diffuse3"
  {
    assert DecimalString(1) == "1" && DecimalString(2) == "2" && DecimalString(3) == "3";
  }

  /** The counters while the example below is named. */
  lemma ExampleCounters()
    ensures CountersAfter([Tex(DiffuseTag)], FromOne) == Counters(2, 1, 1)
    ensures CountersAfter([Tex(DiffuseTag), Tex(SpecularTag)], FromOne) == Counters(2, 2, 1)
    ensures CountersAfter([Tex(DiffuseTag), Tex(SpecularTag), Tex(DiffuseTag)], FromOne) == Counters(3, 2, 1)
  {
    var d, sp := Tex(DiffuseTag), Tex(SpecularTag);
    assert [d][..0] == [];
    assert [d, sp][..1] == [d];
    assert [d, sp, d][..2] == [d, sp];
  }

  /** The first two names of the example below. */
  lemma ExampleFirstTwo()
    ensures SamplerNames([Tex(DiffuseTag), Tex(SpecularTag)], FromOne) == ["texture_diffuse1", "texture_specular1"]
  {
    var d, sp := Tex(DiffuseTag), Tex(SpecularTag);
    ExampleNameStrings();
    ExampleCounters();
    SamplerNamesSnoc([], d, FromOne);
    assert [] + [d] == [d];
    SamplerNamesSnoc([d], sp, FromOne);
    assert [d] + [sp] == [d, sp];
  }

  /** Three diffuse textures and one specular, stored as diffuse, specular,
      diffuse, diffuse and named from 1. */
  lemma ExampleNaming()
    ensures SamplerNames([Tex(DiffuseTag), Tex(SpecularTag), Tex(DiffuseTag), Tex(DiffuseTag)], FromOne)
         == ["texture_diffuse1", "texture_specular1", "texture_diffuse2", "texture_diffuse3"]
  {
    var d, sp := Tex(DiffuseTag), Tex(SpecularTag);
    ExampleNameStrings();
    ExampleCounters();
    ExampleFirstTwo();
    SamplerNamesSnoc([d, sp], d, FromOne);
    assert [d, sp] + [d] == [d, sp, d];
    SamplerNamesSnoc([d, sp, d], d, FromOne);
    assert [d, sp, d] + [d] == [d, sp, d, d];
  }

  /** The source leaves the diffuse and specular counters uninitialised: if
      the diffuse counter happens to hold 0, the first diffuse texture is
      bound to `texture_diffuse0`, which the shaders do not declare. */
  lemma UninitialisedCounterMisnames()
    ensures SamplerNames([Tex(DiffuseTag)], Counters(0, 0, 1)) == ["texture_diffuse0"]
    ensures SamplerNames([Tex(DiffuseTag)], FromOne) == ["texture_diffuse1"]
  {
    var d := Tex(DiffuseTag);
    SamplerNamesSnoc([], d, Counters(0, 0, 1));
    SamplerNamesSnoc([], d, FromOne);
    assert [] + [d] == [d];
    assert DecimalString(0) == "0" && DecimalString(1) == "1";
    assert NameFor(DiffuseTag, Counters(0, 0, 1)) == "texture_diffuse0";
    assert NameFor(DiffuseTag, FromOne) == "texture_diffuse1";
  }
}
