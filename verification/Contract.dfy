/** The bytes that identify a federation method contract. Models the hashing side of
    crates/xolotl-daemon/src/federation_catalog.rs; the hash function itself is not modelled. */
module Contract {
  import opened Bytes

  /** A request grant in canonical form. */
  datatype Grant = Grant(selector: Text, mode: nat, methods: seq<Text>, flags: nat)

  datatype Codec = BytesV1

  /** Everything a contract promises. */
  datatype Terms = Terms(
    exported: Text, path: Text, call: Text, program: Text, identity: Text, codec: Codec, grants: seq<Grant>)

  const LIMIT: nat := 0x1_0000_0000

  /** The low 32 bits of `n`, most significant byte first. */
  function Be32(n: nat): (r: Text)
    ensures |r| == 4
  {
    [n / 0x100_0000 % 256, n / 0x1_0000 % 256, n / 256 % 256, n % 256]
  }

  /** A text and its length. */
  function Spelled(t: Text): Text { Be32(|t|) + t }

  function SpelledAll(ts: seq<Text>): Text { if ts == [] then [] else Spelled(ts[0]) + SpelledAll(ts[1..]) }

  function CodecName(codec: Codec): Text { [98, 121, 116, 101, 115, 95, 118, 49] }

  function GrantBytes(g: Grant): Text {
    Spelled(g.selector) + ([g.mode] + (Be32(|g.methods|) + (SpelledAll(g.methods) + Be32(g.flags))))
  }

  function GrantsBytes(gs: seq<Grant>): Text { if gs == [] then [] else GrantBytes(gs[0]) + GrantsBytes(gs[1..]) }

  /** The byte string that is hashed. */
  function Encode(c: Terms): Text {
    Spelled(c.exported) + (Spelled(c.path) + (Spelled(c.call) + (c.program + (Spelled(c.identity)
    + (Spelled(CodecName(c.codec)) + (Be32(|c.grants|) + GrantsBytes(c.grants)))))))
  }

  // ----- the program -----

  /** What the hasher has been fed. */
  class Hasher {
    var fed: Text

    constructor ()
      ensures fed == []
    {
      fed := [];
    }

    method Update(bytes: Text)
      modifies this
      ensures fed == old(fed) + bytes
    {
      fed := fed + bytes;
    }
  }

  method HashText(hash: Hasher, text: Text)
    modifies hash
    ensures hash.fed == old(hash.fed) + Spelled(text)
  {
    hash.Update(Be32(|text|));
    hash.Update(text);
    assert old(hash.fed) + Be32(|text|) + text == old(hash.fed) + Spelled(text);
  }

  method HashAll(hash: Hasher, texts: seq<Text>)
    modifies hash
    ensures hash.fed == old(hash.fed) + SpelledAll(texts)
  {
    hide Spelled;
    ghost var was := hash.fed;
    for i := 0 to |texts|
      invariant hash.fed + SpelledAll(texts[i..]) == was + SpelledAll(texts)
    {
      ghost var now := hash.fed;
      HashText(hash, texts[i]);
      assert texts[i..][1..] == texts[i + 1..];
      Nest(now, Spelled(texts[i]), SpelledAll(texts[i + 1..]));
    }
    assert texts[|texts|..] == [];
  }

  method HashGrant(hash: Hasher, g: Grant)
    modifies hash
    ensures hash.fed == old(hash.fed) + GrantBytes(g)
  {
    hide Spelled, SpelledAll, Be32;
    ghost var was := hash.fed;
    ghost var a, b, c, d, e := Spelled(g.selector), [g.mode], Be32(|g.methods|), SpelledAll(g.methods), Be32(g.flags);
    HashText(hash, g.selector);
    hash.Update([g.mode]);
    hash.Update(Be32(|g.methods|));
    HashAll(hash, g.methods);
    hash.Update(Be32(g.flags));
    Nest(was + a + b + c, d, e);
    Nest(was + a + b, c, d + e);
    Nest(was + a, b, c + (d + e));
    Nest(was, a, b + (c + (d + e)));
  }

  method HashGrants(hash: Hasher, grants: seq<Grant>)
    modifies hash
    ensures hash.fed == old(hash.fed) + GrantsBytes(grants)
  {
    hide GrantBytes;
    ghost var was := hash.fed;
    for i := 0 to |grants|
      invariant hash.fed + GrantsBytes(grants[i..]) == was + GrantsBytes(grants)
    {
      ghost var now := hash.fed;
      HashGrant(hash, grants[i]);
      assert grants[i..][1..] == grants[i + 1..];
      Nest(now, GrantBytes(grants[i]), GrantsBytes(grants[i + 1..]));
    }
    assert grants[|grants|..] == [];
  }

  /** Feed a whole contract to the hasher. */
  method FeedContract(hash: Hasher, t: Terms)
    modifies hash
    ensures hash.fed == old(hash.fed) + Encode(t)
  {
    hide Spelled, GrantsBytes, Be32, CodecName;
    ghost var was := hash.fed;
    ghost var a, b, c, d, e := Spelled(t.exported), Spelled(t.path), Spelled(t.call), t.program, Spelled(t.identity);
    ghost var f, g, h := Spelled(CodecName(t.codec)), Be32(|t.grants|), GrantsBytes(t.grants);
    HashText(hash, t.exported);
    HashText(hash, t.path);
    HashText(hash, t.call);
    hash.Update(t.program);
    HashText(hash, t.identity);
    HashText(hash, CodecName(t.codec));
    hash.Update(Be32(|t.grants|));
    HashGrants(hash, t.grants);
    Nest(was + a + b + c + d + e + f, g, h);
    Nest(was + a + b + c + d + e, f, g + h);
    Nest(was + a + b + c + d, e, f + (g + h));
    Nest(was + a + b + c, d, e + (f + (g + h)));
    Nest(was + a + b, c, d + (e + (f + (g + h))));
    Nest(was + a, b, c + (d + (e + (f + (g + h)))));
    Nest(was, a, b + (c + (d + (e + (f + (g + h))))));
  }

  lemma Nest(a: Text, b: Text, c: Text)
    ensures (a + b) + c == a + (b + c)
  {
  }

  // ----- different contracts have different bytes -----

  lemma Cancel(a: Text, b: Text, x: Text, y: Text)
    requires |a| == |b| && a + x == b + y
    ensures a == b && x == y
  {
    assert (a + x)[..|a|] == a && (b + y)[..|b|] == b && (a + x)[|a|..] == x && (b + y)[|b|..] == y;
  }

  lemma Be32Injective(m: nat, n: nat)
    requires m < LIMIT && n < LIMIT && Be32(m) == Be32(n)
    ensures m == n
  {
    Digits(m);
    Digits(n);
    assert Be32(m)[0] == Be32(n)[0] && Be32(m)[1] == Be32(n)[1] && Be32(m)[2] == Be32(n)[2] && Be32(m)[3] == Be32(n)[3];
  }

  lemma Digits(n: nat)
    requires n < LIMIT
    ensures n == Be32(n)[0] * 0x100_0000 + Be32(n)[1] * 0x1_0000 + Be32(n)[2] * 256 + Be32(n)[3]
  {
    var a, b, c := n / 256, n / 0x1_0000, n / 0x100_0000;
    assert b == a / 256 && c == b / 256 && c < 256;
  }

  lemma SpelledCancels(a: Text, b: Text, x: Text, y: Text)
    requires |a| < LIMIT && |b| < LIMIT && Spelled(a) + x == Spelled(b) + y
    ensures a == b && x == y
  {
    assert Spelled(a) + x == Be32(|a|) + (a + x) && Spelled(b) + y == Be32(|b|) + (b + y);
    Cancel(Be32(|a|), Be32(|b|), a + x, b + y);
    Be32Injective(|a|, |b|);
    Cancel(a, b, x, y);
  }

  lemma Be32Cancels(m: nat, n: nat, x: Text, y: Text)
    requires m < LIMIT && n < LIMIT && Be32(m) + x == Be32(n) + y
    ensures m == n && x == y
  {
    Cancel(Be32(m), Be32(n), x, y);
    Be32Injective(m, n);
  }

  predicate Short(t: Text) { |t| < LIMIT }

  predicate GrantFits(g: Grant) {
    Short(g.selector) && |g.methods| < LIMIT && (forall i :: 0 <= i < |g.methods| ==> Short(g.methods[i]))
      && g.flags < LIMIT
  }

  /** All lengths and flags fit the 32 bits they are written in, and the program id has 32 bytes. */
  predicate Fits(c: Terms) {
    && Short(c.exported) && Short(c.path) && Short(c.call) && Short(c.identity) && |c.program| == 32
    && |c.grants| < LIMIT && forall i :: 0 <= i < |c.grants| ==> GrantFits(c.grants[i])
  }

  lemma {:induction false} AllCancel(a: seq<Text>, b: seq<Text>, x: Text, y: Text)
    requires |a| == |b| && (forall i :: 0 <= i < |a| ==> Short(a[i]) && Short(b[i]))
    requires SpelledAll(a) + x == SpelledAll(b) + y
    ensures a == b && x == y
  {
    if a == [] {
      assert [] + x == x && [] + y == y;
    } else {
      assert SpelledAll(a) + x == Spelled(a[0]) + (SpelledAll(a[1..]) + x);
      assert SpelledAll(b) + y == Spelled(b[0]) + (SpelledAll(b[1..]) + y);
      SpelledCancels(a[0], b[0], SpelledAll(a[1..]) + x, SpelledAll(b[1..]) + y);
      AllCancel(a[1..], b[1..], x, y);
    }
  }

  lemma GrantCancels(g: Grant, h: Grant, x: Text, y: Text)
    requires GrantFits(g) && GrantFits(h) && GrantBytes(g) + x == GrantBytes(h) + y
    ensures g == h && x == y
  {
    hide Spelled, SpelledAll, Be32;
    var gf, hf := Be32(g.flags) + x, Be32(h.flags) + y;
    var gm, hm := SpelledAll(g.methods) + gf, SpelledAll(h.methods) + hf;
    var gc, hc := Be32(|g.methods|) + gm, Be32(|h.methods|) + hm;
    GrantThen(g, x);
    GrantThen(h, y);
    SpelledCancels(g.selector, h.selector, [g.mode] + gc, [h.mode] + hc);
    Cancel([g.mode], [h.mode], gc, hc);
    Be32Cancels(|g.methods|, |h.methods|, gm, hm);
    AllCancel(g.methods, h.methods, gf, hf);
    Be32Cancels(g.flags, h.flags, x, y);
  }

  lemma GrantThen(g: Grant, x: Text)
    ensures GrantBytes(g) + x ==
      Spelled(g.selector) + ([g.mode] + (Be32(|g.methods|) + (SpelledAll(g.methods) + (Be32(g.flags) + x))))
  {
    hide Spelled, SpelledAll, Be32;
    var b, c, d, e := [g.mode], Be32(|g.methods|), SpelledAll(g.methods), Be32(g.flags);
    Nest(Spelled(g.selector), b + (c + (d + e)), x);
    Nest(b, c + (d + e), x);
    Nest(c, d + e, x);
    Nest(d, e, x);
  }

  lemma {:induction false} GrantsCancel(a: seq<Grant>, b: seq<Grant>)
    requires |a| == |b| && (forall i :: 0 <= i < |a| ==> GrantFits(a[i]) && GrantFits(b[i]))
    requires GrantsBytes(a) == GrantsBytes(b)
    ensures a == b
  {
    if a != [] {
      GrantCancels(a[0], b[0], GrantsBytes(a[1..]), GrantsBytes(b[1..]));
      GrantsCancel(a[1..], b[1..]);
    }
  }

  /** Contracts with the same bytes are the same contract. */
  lemma EncodeInjective(a: Terms, b: Terms)
    requires Fits(a) && Fits(b) && Encode(a) == Encode(b)
    ensures a == b
  {
    hide Spelled, Be32, GrantsBytes, CodecName;
    var ag, bg := Be32(|a.grants|) + GrantsBytes(a.grants), Be32(|b.grants|) + GrantsBytes(b.grants);
    var ac, bc := Spelled(CodecName(a.codec)) + ag, Spelled(CodecName(b.codec)) + bg;
    var ai, bi := Spelled(a.identity) + ac, Spelled(b.identity) + bc;
    var am, bm := Spelled(a.call) + (a.program + ai), Spelled(b.call) + (b.program + bi);
    SpelledCancels(a.exported, b.exported, Spelled(a.path) + am, Spelled(b.path) + bm);
    SpelledCancels(a.path, b.path, am, bm);
    SpelledCancels(a.call, b.call, a.program + ai, b.program + bi);
    Cancel(a.program, b.program, ai, bi);
    SpelledCancels(a.identity, b.identity, ac, bc);
    CodecShort(a.codec);
    CodecShort(b.codec);
    SpelledCancels(CodecName(a.codec), CodecName(b.codec), ag, bg);
    Be32Cancels(|a.grants|, |b.grants|, GrantsBytes(a.grants), GrantsBytes(b.grants));
    GrantsCancel(a.grants, b.grants);
  }

  lemma CodecShort(codec: Codec)
    ensures |CodecName(codec)| < LIMIT
  {
  }
}
