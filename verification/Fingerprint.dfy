/** The text a golden fingerprint hashes: labelled fields, each ended by a NUL, payloads sorted by name. */
module Fingerprint {
  import opened Sorting

  datatype PayloadDigest = PayloadDigest(name: string, digest: string)

  datatype Inputs = Inputs(
    baseImageRef: string, runnerVersion: string, runnerTarballDigest: string, binaryDigest: string,
    payloads: seq<PayloadDigest>)

  const NUL := '\0'

  function PayloadName(p: PayloadDigest): string {
    p.name
  }

  function Field(tag: string, value: string): string {
    tag + "=" + value + [NUL]
  }

  function PayloadFields(payloads: seq<PayloadDigest>): string {
    if payloads == [] then ""
    else
      var last := payloads[|payloads| - 1];
      PayloadFields(payloads[..|payloads| - 1]) + Field("payload-name", last.name) + Field("payload-digest", last.digest)
  }

  function Preimage(i: Inputs): string {
    Field("base-image", i.baseImageRef) + Field("runner-version", i.runnerVersion)
    + Field("runner-tarball", i.runnerTarballDigest) + Field("binary", i.binaryDigest)
    + PayloadFields(SortBy(i.payloads, PayloadName))
  }

  /** A running digest; what was written to it so far. */
  class Digest {
    var written: string

    constructor ()
      ensures written == ""
    {
      written := "";
    }

    method WriteString(s: string)
      modifies this
      ensures written == old(written) + s
    {
      written := written + s;
    }

    method WriteField(tag: string, value: string)
      modifies this
      ensures written == old(written) + Field(tag, value)
    {
      WriteString(tag);
      WriteString("=");
      WriteString(value);
      WriteString([NUL]);
    }
  }

  lemma NoPayloads()
    ensures PayloadFields([]) == ""
  {
  }

  lemma OnePayloadMore(head: string, payloads: seq<PayloadDigest>, k: nat)
    requires k < |payloads|
    ensures head + PayloadFields(payloads[..k + 1])
         == head + PayloadFields(payloads[..k]) + Field("payload-name", payloads[k].name)
            + Field("payload-digest", payloads[k].digest)
  {
    assert payloads[..k + 1][..k] == payloads[..k];
  }

  /** The hash is opaque; what is hashed is the preimage. */
  method Compute(i: Inputs, hash: string -> string) returns (fingerprint: string)
    ensures fingerprint == hash(Preimage(i))
  {
    hide Field, SortBy, PayloadFields;
    var digest := new Digest();
    digest.WriteField("base-image", i.baseImageRef);
    digest.WriteField("runner-version", i.runnerVersion);
    digest.WriteField("runner-tarball", i.runnerTarballDigest);
    digest.WriteField("binary", i.binaryDigest);
    ghost var head := Field("base-image", i.baseImageRef) + Field("runner-version", i.runnerVersion)
      + Field("runner-tarball", i.runnerTarballDigest) + Field("binary", i.binaryDigest);
    assert digest.written == head;
    var payloads := SortBy(i.payloads, PayloadName);
    assert digest.written == head + PayloadFields(payloads[..0]) by { NoPayloads(); }
    for k := 0 to |payloads|
      invariant digest.written == head + PayloadFields(payloads[..k])
    {
      OnePayloadMore(head, payloads, k);
      digest.WriteField("payload-name", payloads[k].name);
      digest.WriteField("payload-digest", payloads[k].digest);
    }
    assert payloads[..|payloads|] == payloads;
    fingerprint := hash(digest.written);
  }

  // ----- reading a preimage back ------------------------------------------------------------

  datatype FieldText = FieldText(tag: string, value: string)

  /** The fields one after the other, as they are hashed. */
  function Encode(fields: seq<FieldText>): string {
    if fields == [] then "" else Field(fields[0].tag, fields[0].value) + Encode(fields[1..])
  }

  function PayloadTexts(payloads: seq<PayloadDigest>): seq<FieldText> {
    if payloads == [] then []
    else [FieldText("payload-name", payloads[0].name), FieldText("payload-digest", payloads[0].digest)]
         + PayloadTexts(payloads[1..])
  }

  function Texts(i: Inputs): seq<FieldText> {
    [FieldText("base-image", i.baseImageRef), FieldText("runner-version", i.runnerVersion),
     FieldText("runner-tarball", i.runnerTarballDigest), FieldText("binary", i.binaryDigest)]
    + PayloadTexts(SortBy(i.payloads, PayloadName))
  }

  lemma {:induction false} EncodeConcat(a: seq<FieldText>, b: seq<FieldText>)
    ensures Encode(a + b) == Encode(a) + Encode(b)
  {
    if a == [] {
      assert a + b == b;
    } else {
      EncodeConcat(a[1..], b);
      assert (a + b)[1..] == a[1..] + b;
    }
  }

  lemma EncodeTwo(f: FieldText, g: FieldText)
    ensures Encode([f, g]) == Field(f.tag, f.value) + Field(g.tag, g.value)
  {
    assert [f, g][1..] == [g] && [g][1..] == [];
    assert Encode([g]) == Field(g.tag, g.value) + "";
  }

  lemma {:induction false} PayloadTextsConcat(a: seq<PayloadDigest>, b: seq<PayloadDigest>)
    ensures PayloadTexts(a + b) == PayloadTexts(a) + PayloadTexts(b)
  {
    if a == [] {
      assert a + b == b;
    } else {
      PayloadTextsConcat(a[1..], b);
      assert (a + b)[1..] == a[1..] + b;
    }
  }

  lemma {:induction false} PayloadFieldsAreEncoded(payloads: seq<PayloadDigest>)
    ensures PayloadFields(payloads) == Encode(PayloadTexts(payloads))
  {
    if payloads != [] {
      var (before, last) := (payloads[..|payloads| - 1], payloads[|payloads| - 1]);
      PayloadFieldsAreEncoded(before);
      var pair := [FieldText("payload-name", last.name), FieldText("payload-digest", last.digest)];
      assert payloads == before + [last] && [last][1..] == [];
      PayloadTextsConcat(before, [last]);
      assert PayloadTexts([last]) == pair;
      EncodeConcat(PayloadTexts(before), pair);
      EncodeTwo(pair[0], pair[1]);
    }
  }

  lemma PreimageIsEncoded(i: Inputs)
    ensures Preimage(i) == Encode(Texts(i))
  {
    var payloads := SortBy(i.payloads, PayloadName);
    PayloadFieldsAreEncoded(payloads);
    var a := [FieldText("base-image", i.baseImageRef), FieldText("runner-version", i.runnerVersion)];
    var b := [FieldText("runner-tarball", i.runnerTarballDigest), FieldText("binary", i.binaryDigest)];
    EncodeTwo(a[0], a[1]);
    EncodeTwo(b[0], b[1]);
    EncodeConcat(a, b + PayloadTexts(payloads));
    EncodeConcat(b, PayloadTexts(payloads));
    assert Texts(i) == a + (b + PayloadTexts(payloads));
  }

  // ----- which characters make it unambiguous -----------------------------------------------

  predicate Over(s: string, chars: set<char>) {
    forall k :: 0 <= k < |s| ==> s[k] in chars
  }

  /** The tag a field with this tag may be followed by. */
  function NextTag(tag: string): string {
    if tag == "base-image" then "runner-version"
    else if tag == "runner-version" then "runner-tarball"
    else if tag == "runner-tarball" then "binary"
    else if tag == "payload-name" then "payload-digest"
    else "payload-name"
  }

  /** Values over these characters can spell the start of the field that follows some field. */
  predicate SpellsATag(chars: set<char>) {
    || Over("runner-version=", chars) || Over("runner-tarball=", chars) || Over("binary=", chars)
    || Over("payload-name=", chars) || Over("payload-digest=", chars)
  }

  /** The values never run into what follows them. */
  predicate Delimits(chars: set<char>) {
    NUL !in chars || !SpellsATag(chars)
  }

  /** Where a value over such characters ends can be told from what comes after it. */
  lemma ValueEnds(v: string, x: string, w: string, y: string, tag: string, chars: set<char>)
    requires Over(v, chars) && Over(w, chars) && NUL !in tag
    requires NUL !in chars || !Over(tag + "=", chars)
    requires (x == "" || tag + "=" <= x) && (y == "" || tag + "=" <= y)
    requires v + [NUL] + x == w + [NUL] + y
    ensures |v| >= |w|
  {
    if |v| < |w| {
      var s := w + [NUL] + y;
      var open := tag + "=";
      assert s[|v|] == NUL && s[|v|] == w[|v|];
      assert x == s[|v| + 1..] && x != "";
      forall k | 0 <= k < |open|
        ensures |v| + 1 + k < |w| && open[k] in chars
      {
        SpelledInside(v, x, w, y, open, k);
        assert open[k] == s[|v| + 1 + k] == w[|v| + 1 + k];
      }
      assert false;
    }
  }

  /** A tag that begins inside a value ends inside it, because it has no NUL to share. */
  lemma {:induction false} SpelledInside(v: string, x: string, w: string, y: string, open: string, k: nat)
    requires |v| < |w| && k < |open| && open <= x && NUL !in open && v + [NUL] + x == w + [NUL] + y
    ensures |v| + 1 + k < |w|
  {
    var s := v + [NUL] + x;
    if k > 0 { SpelledInside(v, x, w, y, open, k - 1); }
    assert s[|v| + 1 + k] == x[k] == open[k];
    assert s[|w|] == NUL;
  }

  /** Each field is followed by the one its tag announces, or ends the text. */
  predicate Chained(fields: seq<FieldText>) {
    forall k :: 0 <= k < |fields| - 1 ==> fields[k + 1].tag == NextTag(fields[k].tag)
  }

  predicate ValuesOver(fields: seq<FieldText>, chars: set<char>) {
    forall k :: 0 <= k < |fields| ==> Over(fields[k].value, chars)
  }

  lemma NextTagDelimits(tag: string, chars: set<char>)
    requires Delimits(chars)
    ensures NUL !in NextTag(tag) && (NUL !in chars || !Over(NextTag(tag) + "=", chars))
  {
    assert "runner-version" + "=" == "runner-version=" && "runner-tarball" + "=" == "runner-tarball=";
    assert "binary" + "=" == "binary=";
    assert "payload-name" + "=" == "payload-name=" && "payload-digest" + "=" == "payload-digest=";
    assert NextTag(tag) + "=" in ["runner-version=", "runner-tarball=", "binary=", "payload-name=", "payload-digest="];
  }

  lemma EncodeOpens(fields: seq<FieldText>, tag: string)
    requires fields != [] ==> fields[0].tag == tag
    ensures fields == [] <==> Encode(fields) == ""
    ensures Encode(fields) == "" || tag + "=" <= Encode(fields)
  {
  }

  lemma EmptyText(fields: seq<FieldText>)
    ensures fields == [] <==> Encode(fields) == ""
  {
  }

  /** Fields with a common first tag and unambiguous values are read back from their text. */
  lemma {:induction false} EncodeInjective(f: seq<FieldText>, g: seq<FieldText>, chars: set<char>)
    requires Delimits(chars) && ValuesOver(f, chars) && ValuesOver(g, chars) && Chained(f) && Chained(g)
    requires f != [] && g != [] ==> f[0].tag == g[0].tag
    requires Encode(f) == Encode(g)
    ensures f == g
  {
    EmptyText(f);
    EmptyText(g);
    if f != [] && g != [] {
      var (tag, v, w) := (f[0].tag, f[0].value, g[0].value);
      var (x, y) := (Encode(f[1..]), Encode(g[1..]));
      NextTagDelimits(tag, chars);
      EncodeHead(f);
      EncodeHead(g);
      EncodeOpens(f[1..], NextTag(tag));
      EncodeOpens(g[1..], NextTag(tag));
      hide Encode, NextTag, Delimits, Over;
      SameOpening(tag + "=", v + [NUL] + x, w + [NUL] + y);
      ValueEnds(v, x, w, y, NextTag(tag), chars);
      ValueEnds(w, y, v, x, NextTag(tag), chars);
      SameValue(v, x, w, y);
      EncodeInjective(f[1..], g[1..], chars);
      assert f == [f[0]] + f[1..] && g == [g[0]] + g[1..];
    }
  }

  lemma EncodeHead(f: seq<FieldText>)
    requires f != []
    ensures Encode(f) == f[0].tag + "=" + (f[0].value + [NUL] + Encode(f[1..]))
  {
  }

  lemma SameValue(v: string, x: string, w: string, y: string)
    requires |v| == |w| && v + [NUL] + x == w + [NUL] + y
    ensures v == w && x == y
  {
    var (s, t) := (v + [NUL] + x, w + [NUL] + y);
    assert v == s[..|v|] && w == t[..|w|];
    assert x == s[|v| + 1..] && y == t[|w| + 1..];
  }

  lemma SameOpening(open: string, a: string, b: string)
    requires open + a == open + b
    ensures a == b
  {
    assert a == (open + a)[|open|..] && b == (open + b)[|open|..];
  }

  // ----- canonical and injective ------------------------------------------------------------

  /** The same identity: equal scalar fields, and the same payloads in any order. */
  ghost predicate SameIdentity(a: Inputs, b: Inputs) {
    a.(payloads := []) == b.(payloads := []) && multiset(a.payloads) == multiset(b.payloads)
  }

  /** No two different payloads share a name. */
  ghost predicate NamesIdentify(i: Inputs) {
    KeysIdentify(i.payloads, PayloadName)
  }

  predicate InputsOver(i: Inputs, chars: set<char>) {
    && Over(i.baseImageRef, chars) && Over(i.runnerVersion, chars)
    && Over(i.runnerTarballDigest, chars) && Over(i.binaryDigest, chars)
    && forall k :: 0 <= k < |i.payloads| ==> Over(i.payloads[k].name, chars) && Over(i.payloads[k].digest, chars)
  }

  lemma {:induction false} PayloadTextsFit(payloads: seq<PayloadDigest>, chars: set<char>)
    requires forall k :: 0 <= k < |payloads| ==> Over(payloads[k].name, chars) && Over(payloads[k].digest, chars)
    ensures Chained(PayloadTexts(payloads)) && ValuesOver(PayloadTexts(payloads), chars)
    ensures payloads != [] ==> PayloadTexts(payloads) != [] && PayloadTexts(payloads)[0].tag == "payload-name"
    ensures payloads == [] ==> PayloadTexts(payloads) == []
  {
    hide Over;
    if payloads != [] { PayloadTextsFit(payloads[1..], chars); }
  }

  lemma TextsFit(i: Inputs, chars: set<char>)
    requires InputsOver(i, chars)
    ensures Chained(Texts(i)) && ValuesOver(Texts(i), chars) && Texts(i) != [] && Texts(i)[0].tag == "base-image"
  {
    hide Over;
    var payloads := SortBy(i.payloads, PayloadName);
    SortBySorts(i.payloads, PayloadName);
    hide SortBy, Sorted;
    forall k | 0 <= k < |payloads|
      ensures Over(payloads[k].name, chars) && Over(payloads[k].digest, chars)
    {
      assert payloads[k] in multiset(i.payloads);
      var m :| 0 <= m < |i.payloads| && i.payloads[m] == payloads[k];
    }
    PayloadTextsFit(payloads, chars);
  }

  lemma {:induction false} PayloadTextsInjective(a: seq<PayloadDigest>, b: seq<PayloadDigest>)
    requires PayloadTexts(a) == PayloadTexts(b)
    ensures a == b
  {
    if a != [] && b != [] {
      var (s, t) := (PayloadTexts(a), PayloadTexts(b));
      assert s[0] == t[0] && s[1] == t[1];
      assert s[2..] == PayloadTexts(a[1..]) && t[2..] == PayloadTexts(b[1..]);
      PayloadTextsInjective(a[1..], b[1..]);
      assert a == [a[0]] + a[1..] && b == [b[0]] + b[1..];
    }
  }

  lemma TextsIdentify(a: Inputs, b: Inputs)
    requires Texts(a) == Texts(b)
    ensures SameIdentity(a, b)
  {
    var (s, t) := (Texts(a), Texts(b));
    assert s[0] == t[0] && s[1] == t[1] && s[2] == t[2] && s[3] == t[3];
    assert s[4..] == PayloadTexts(SortBy(a.payloads, PayloadName)) && t[4..] == PayloadTexts(SortBy(b.payloads, PayloadName));
    PayloadTextsInjective(SortBy(a.payloads, PayloadName), SortBy(b.payloads, PayloadName));
    SortBySorts(a.payloads, PayloadName);
    SortBySorts(b.payloads, PayloadName);
  }

  /** Inputs over delimiting characters hash the same text if and only if they name the same image. */
  lemma DelimitedIdentify(a: Inputs, b: Inputs, chars: set<char>)
    requires Delimits(chars) && InputsOver(a, chars) && InputsOver(b, chars) && NamesIdentify(a) && NamesIdentify(b)
    ensures Preimage(a) == Preimage(b) <==> SameIdentity(a, b)
  {
    if SameIdentity(a, b) {
      SortIgnoresOrder(a.payloads, b.payloads, PayloadName);
    }
    PreimageIsEncoded(a);
    PreimageIsEncoded(b);
    TextsFit(a, chars);
    TextsFit(b, chars);
    hide Preimage, Texts, Delimits, InputsOver, SameIdentity, Chained, ValuesOver;
    if Encode(Texts(a)) == Encode(Texts(b)) {
      EncodeInjective(Texts(a), Texts(b), chars);
      TextsIdentify(a, b);
    }
  }

  /** The text identifies every image whose fields are made of these characters. */
  ghost predicate Identifies(chars: set<char>) {
    forall a: Inputs, b: Inputs ::
      InputsOver(a, chars) && InputsOver(b, chars) && NamesIdentify(a) && NamesIdentify(b) ==>
        (Preimage(a) == Preimage(b) <==> SameIdentity(a, b))
  }

  /** A value that spells a NUL and the next tag can stand on either side of that tag. */
  lemma ValueMoves(before: string, tag: string)
    ensures var v := [NUL] + tag + "=";
      Field(before, v) + Field(tag, "") == Field(before, "") + Field(tag, v)
  {
  }

  /** The i-th of the five places at which a value can cross the tag behind it. */
  function Crossing(place: nat, v: string, crossed: bool): Inputs {
    var (left, right) := if crossed then ("", v) else (v, "");
    match place
    case 0 => Inputs(left, right, "", "", [])
    case 1 => Inputs("", left, right, "", [])
    case 2 => Inputs("", "", left, right, [])
    case 3 => Inputs("", "", "", left, [PayloadDigest(right, "")])
    case _ => Inputs("", "", "", "", [PayloadDigest(left, right)])
  }

  function CrossedTag(place: nat): string {
    match place
    case 0 => "runner-version"
    case 1 => "runner-tarball"
    case 2 => "binary"
    case 3 => "payload-name"
    case _ => "payload-digest"
  }

  lemma OnePayloadText(p: PayloadDigest)
    ensures PayloadFields(SortBy([p], PayloadName)) == Field("payload-name", p.name) + Field("payload-digest", p.digest)
    ensures PayloadFields(SortBy<PayloadDigest>([], PayloadName)) == ""
  {
    assert [p][1..] == [] && [p][..0] == [];
    assert SortBy([p], PayloadName) == [p];
    assert PayloadFields([p]) == "" + Field("payload-name", p.name) + Field("payload-digest", p.digest);
  }

  lemma Regroup(a: string, b: string, c: string, d: string, e: string)
    ensures a + b + c + d + e == (a + b) + (c + d + e)
    ensures a + b + c + d + e == a + (b + c) + (d + e)
    ensures a + b + c + d + e == a + b + (c + d) + e
    ensures a + b + c + d + e == a + b + c + (d + e)
  {
  }

  /** The text of an image without payloads, or with one, field by field. */
  lemma PreimageFields(i: Inputs)
    requires |i.payloads| <= 1
    ensures var (a, b) := (Field("base-image", i.baseImageRef), Field("runner-version", i.runnerVersion));
      var (c, d) := (Field("runner-tarball", i.runnerTarballDigest), Field("binary", i.binaryDigest));
      Preimage(i) == if i.payloads == [] then a + b + c + d + ""
                     else a + b + c + d + (Field("payload-name", i.payloads[0].name) + Field("payload-digest", i.payloads[0].digest))
  {
    if i.payloads == [] {
      OnePayloadText(PayloadDigest("", ""));
    } else {
      assert i.payloads == [i.payloads[0]];
      OnePayloadText(i.payloads[0]);
    }
  }

  /** Two scalar fields exchange the tag between them. */
  lemma ScalarCrossing(place: nat, v: string)
    requires place < 3 && v == [NUL] + CrossedTag(place) + "="
    ensures Preimage(Crossing(place, v, false)) == Preimage(Crossing(place, v, true))
  {
    var (i, j) := (Crossing(place, v, false), Crossing(place, v, true));
    PreimageFields(i);
    PreimageFields(j);
    ValueMoves(["base-image", "runner-version", "runner-tarball"][place], CrossedTag(place));
    hide Preimage, Field;
    Regroup(Field("base-image", i.baseImageRef), Field("runner-version", i.runnerVersion),
            Field("runner-tarball", i.runnerTarballDigest), Field("binary", i.binaryDigest), "");
    Regroup(Field("base-image", j.baseImageRef), Field("runner-version", j.runnerVersion),
            Field("runner-tarball", j.runnerTarballDigest), Field("binary", j.binaryDigest), "");
  }

  /** A payload field exchanges its tag with the field before it. */
  lemma PayloadCrossing(place: nat, v: string)
    requires 3 <= place < 5 && v == [NUL] + CrossedTag(place) + "="
    ensures Preimage(Crossing(place, v, false)) == Preimage(Crossing(place, v, true))
  {
    var (i, j) := (Crossing(place, v, false), Crossing(place, v, true));
    PreimageFields(i);
    PreimageFields(j);
    ValueMoves(if place == 3 then "binary" else "payload-name", CrossedTag(place));
    hide Preimage, Field;
    var head := Field("base-image", "") + Field("runner-version", "") + Field("runner-tarball", "");
    RegroupTail(head, Field("binary", v), Field("payload-name", ""), Field("payload-digest", ""));
    RegroupTail(head, Field("binary", ""), Field("payload-name", v), Field("payload-digest", ""));
  }

  lemma RegroupTail(head: string, a: string, b: string, c: string)
    ensures head + a + (b + c) == head + (a + b) + c
  {
  }

  /** Both sides of a crossing have the same text and are different images. */
  lemma CrossingCollides(place: nat)
    requires place < 5
    ensures var v := [NUL] + CrossedTag(place) + "=";
      var (a, b) := (Crossing(place, v, false), Crossing(place, v, true));
      Preimage(a) == Preimage(b) && !SameIdentity(a, b) && NamesIdentify(a) && NamesIdentify(b)
  {
    var v := [NUL] + CrossedTag(place) + "=";
    var (a, b) := (Crossing(place, v, false), Crossing(place, v, true));
    if place < 3 { ScalarCrossing(place, v); } else { PayloadCrossing(place, v); }
    hide Preimage;
    assert v != "";
    if place >= 3 {
      assert a.payloads[0] in multiset(a.payloads);
      assert a.payloads[0] in multiset(b.payloads) ==> a.payloads[0] == b.payloads[0];
    }
  }

  lemma SpelledField(binary: string, p: PayloadDigest)
    ensures Field("binary", binary + [NUL] + "payload-name=" + p.name + [NUL] + "payload-digest=" + p.digest)
         == Field("binary", binary) + (Field("payload-name", p.name) + Field("payload-digest", p.digest))
  {
  }

  /**
   The same at one place with any other fields: a binary digest that spells out a payload's fields hashes
   like the plain digest with that payload.
   */
  lemma NulsCollide(image: string, version: string, tarball: string, binary: string, p: PayloadDigest)
    ensures var spelled := binary + [NUL] + "payload-name=" + p.name + [NUL] + "payload-digest=" + p.digest;
      var (a, b) := (Inputs(image, version, tarball, spelled, []), Inputs(image, version, tarball, binary, [p]));
      Preimage(a) == Preimage(b) && !SameIdentity(a, b)
  {
    var spelled := binary + [NUL] + "payload-name=" + p.name + [NUL] + "payload-digest=" + p.digest;
    var (a, b) := (Inputs(image, version, tarball, spelled, []), Inputs(image, version, tarball, binary, [p]));
    var (rest, tail) := (Field("binary", binary), Field("payload-name", p.name) + Field("payload-digest", p.digest));
    PreimageFields(a);
    PreimageFields(b);
    SpelledField(binary, p);
    hide Preimage, Field;
    var head := Field("base-image", image) + Field("runner-version", version) + Field("runner-tarball", tarball);
    assert head + (rest + tail) + "" == head + rest + tail;
    assert |multiset(a.payloads)| == 0 && |multiset(b.payloads)| == 1;
  }

  lemma SpelledPlace(chars: set<char>) returns (place: nat)
    requires SpellsATag(chars)
    ensures place < 5 && Over(CrossedTag(place) + "=", chars)
  {
    assert "runner-version" + "=" == "runner-version=" && "runner-tarball" + "=" == "runner-tarball=";
    assert "binary" + "=" == "binary=";
    assert "payload-name" + "=" == "payload-name=" && "payload-digest" + "=" == "payload-digest=";
    hide Over;
    place := if Over("runner-version=", chars) then 0
             else if Over("runner-tarball=", chars) then 1
             else if Over("binary=", chars) then 2
             else if Over("payload-name=", chars) then 3 else 4;
  }

  lemma OverOpened(open: string, chars: set<char>)
    requires Over(open, chars) && NUL in chars
    ensures Over([NUL] + open, chars) && Over("", chars)
  {
  }

  lemma CrossingOver(place: nat, v: string, crossed: bool, chars: set<char>)
    requires Over(v, chars) && Over("", chars)
    ensures InputsOver(Crossing(place, v, crossed), chars)
  {
    hide Over;
  }

  /** Characters that include a NUL and can spell a tag do not identify. */
  lemma SpelledTagCollides(chars: set<char>)
    requires !Delimits(chars)
    ensures !Identifies(chars)
  {
    var place := SpelledPlace(chars);
    var v := [NUL] + CrossedTag(place) + "=";
    assert v == [NUL] + (CrossedTag(place) + "=");
    OverOpened(CrossedTag(place) + "=", chars);
    CrossingCollides(place);
    CrossingOver(place, v, false, chars);
    CrossingOver(place, v, true, chars);
    hide Over, Preimage, SameIdentity, NamesIdentify, Crossing, InputsOver, Delimits;
  }

  /**
   When no two images collide: for every set of characters, the text identifies all images with distinct
   payload names whose fields are made of those characters if and only if the set has no NUL or is missing
   a character of each tag that follows another field.
   */
  lemma IdentifiesIffDelimits(chars: set<char>)
    ensures Identifies(chars) <==> Delimits(chars)
  {
    if Delimits(chars) {
      forall a: Inputs, b: Inputs |
        InputsOver(a, chars) && InputsOver(b, chars) && NamesIdentify(a) && NamesIdentify(b)
        ensures Preimage(a) == Preimage(b) <==> SameIdentity(a, b)
      {
        DelimitedIdentify(a, b, chars);
      }
    } else {
      SpelledTagCollides(chars);
    }
  }

  /** So among characters that can spell any of those tags the NUL alone decides. */
  lemma NulDecides(chars: set<char>)
    requires SpellsATag(chars)
    ensures Identifies(chars) <==> NUL !in chars
  {
    IdentifiesIffDelimits(chars);
  }

  function CharsOf(s: string): set<char> {
    set c | c in s
  }

  function PayloadChars(payloads: seq<PayloadDigest>): set<char> {
    if payloads == [] then {}
    else CharsOf(payloads[0].name) + CharsOf(payloads[0].digest) + PayloadChars(payloads[1..])
  }

  function InputChars(i: Inputs): set<char> {
    CharsOf(i.baseImageRef) + CharsOf(i.runnerVersion) + CharsOf(i.runnerTarballDigest) + CharsOf(i.binaryDigest)
    + PayloadChars(i.payloads)
  }

  lemma {:induction false} PayloadsOverTheirChars(payloads: seq<PayloadDigest>, more: set<char>)
    requires PayloadChars(payloads) <= more
    ensures forall k :: 0 <= k < |payloads| ==> Over(payloads[k].name, more) && Over(payloads[k].digest, more)
  {
    if payloads != [] {
      assert forall k :: 0 <= k < |payloads[0].name| ==> payloads[0].name[k] in CharsOf(payloads[0].name);
      assert forall k :: 0 <= k < |payloads[0].digest| ==> payloads[0].digest[k] in CharsOf(payloads[0].digest);
      PayloadsOverTheirChars(payloads[1..], more);
    }
  }

  lemma InputsOverTheirChars(i: Inputs, more: set<char>)
    requires InputChars(i) <= more
    ensures InputsOver(i, more)
  {
    PayloadsOverTheirChars(i.payloads, more);
    assert forall k :: 0 <= k < |i.baseImageRef| ==> i.baseImageRef[k] in CharsOf(i.baseImageRef);
    assert forall k :: 0 <= k < |i.runnerVersion| ==> i.runnerVersion[k] in CharsOf(i.runnerVersion);
    assert forall k :: 0 <= k < |i.runnerTarballDigest| ==> i.runnerTarballDigest[k] in CharsOf(i.runnerTarballDigest);
    assert forall k :: 0 <= k < |i.binaryDigest| ==> i.binaryDigest[k] in CharsOf(i.binaryDigest);
  }

  /** For any two images without a NUL in a field the text tells whether they are the same. */
  lemma PreimageIdentifies(a: Inputs, b: Inputs)
    requires NUL !in InputChars(a) && NUL !in InputChars(b) && NamesIdentify(a) && NamesIdentify(b)
    ensures Preimage(a) == Preimage(b) <==> SameIdentity(a, b)
  {
    var chars := InputChars(a) + InputChars(b);
    InputsOverTheirChars(a, chars);
    InputsOverTheirChars(b, chars);
    hide InputsOver, InputChars;
    DelimitedIdentify(a, b, chars);
  }

  /**
   Payloads that share a name keep the order in which a stable sort finds them, and it shows in the text.
   The program's sort does not promise stability; with shared names it may yield either text.
   */
  lemma SharedNamesKeepTheirOrder(i: Inputs, name: string, d1: string, d2: string)
    requires NUL !in name && NUL !in d1 && NUL !in d2 && d1 != d2
    ensures Preimage(i.(payloads := [PayloadDigest(name, d1), PayloadDigest(name, d2)]))
         != Preimage(i.(payloads := [PayloadDigest(name, d2), PayloadDigest(name, d1)]))
  {
    var (p, q) := (PayloadDigest(name, d1), PayloadDigest(name, d2));
    StablePair(p, q);
    StablePair(q, p);
    PayloadFieldsAreEncoded([p, q]);
    PayloadFieldsAreEncoded([q, p]);
    var head := Field("base-image", i.baseImageRef) + Field("runner-version", i.runnerVersion)
      + Field("runner-tarball", i.runnerTarballDigest) + Field("binary", i.binaryDigest);
    hide SortBy, Field, Encode, PayloadFields;
    if head + PayloadFields([p, q]) == head + PayloadFields([q, p]) {
      SameOpening(head, PayloadFields([p, q]), PayloadFields([q, p]));
      var chars := CharsOf(name) + CharsOf(d1) + CharsOf(d2);
      assert Over(name, chars) && Over(d1, chars) && Over(d2, chars);
      PayloadTextsFit([p, q], chars);
      PayloadTextsFit([q, p], chars);
      hide Over;
      EncodeInjective(PayloadTexts([p, q]), PayloadTexts([q, p]), chars);
      PayloadTextsInjective([p, q], [q, p]);
    }
  }

  lemma StablePair(p: PayloadDigest, q: PayloadDigest)
    requires p.name == q.name
    ensures SortBy([p, q], PayloadName) == [p, q]
  {
    LeqTotal(p.name, q.name);
    assert [p, q][1..] == [q] && [q][1..] == [];
    assert SortBy([q], PayloadName) == [q];
  }
}
