/** The mobile client's conversation cipher: a 32-byte digest from an FNV-1a seed and a xorshift32 stream,
    a keystream of digest blocks, and envelopes of nonce, tag and ciphertext. */
module ConvCrypto {
  import opened Fnv
  import opened Words

  type Bytes = seq<bv8>

  datatype Opened = Ok(plaintext: Bytes) | ShortEnvelope | BadMac

  const BLOCK: nat := 32
  const NONCE: nat := 12
  const TAG: nat := 8

  /** "wa-dev-conv-v1:" */
  const PREFIX: Bytes :=
    [0x77, 0x61, 0x2d, 0x64, 0x65, 0x76, 0x2d, 0x63, 0x6f, 0x6e, 0x76, 0x2d, 0x76, 0x31, 0x3a]

  // ------------------------------------------------------------------- hash

  function Seed(input: Bytes): bv32 {
    if Fnv1a(input) == 0 then 0x9e3779b9 else Fnv1a(input)
  }

  function Left13(s: bv32): bv32 { s ^ (s << 13) }
  function Right17(s: bv32): bv32 { s ^ (s >> 17) }
  function Left5(s: bv32): bv32 { s ^ (s << 5) }

  function Shifted(s: bv32): bv32 {
    Left5(Right17(Left13(s)))
  }

  /** The generator's state after `n` rounds. */
  function StateAt(s: bv32, n: nat): bv32 {
    if n == 0 then s else Shifted(StateAt(s, n - 1))
  }

  function LowByte(s: bv32): bv8 {
    (s & 0xff) as bv8
  }

  function HashOf(input: Bytes): (out: Bytes)
    ensures |out| == BLOCK
  {
    seq(BLOCK, (i: nat) => LowByte(StateAt(Seed(input), i + 1)))
  }

  lemma {:induction false} StateUnrolls(s: bv32, n: nat)
    ensures StateAt(s, n + 1) == Shifted(StateAt(s, n))
  {
  }

  ghost predicate Injective(f: bv32 -> bv32) {
    forall x, y :: f(x) == f(y) ==> x == y
  }

  lemma InjectiveInTurn(f: bv32 -> bv32, g: bv32 -> bv32, h: bv32 -> bv32, s: bv32, t: bv32)
    requires Injective(f) && Injective(g) && Injective(h) && h(g(f(s))) == h(g(f(t)))
    ensures s == t
  {
  }

  lemma UndoneIsInjective(f: bv32 -> bv32, undo: bv32 -> bv32)
    requires forall x :: undo(f(x)) == x
    ensures Injective(f)
  {
    forall x, y | f(x) == f(y) ensures x == y {
      assert undo(f(x)) == x && undo(f(y)) == y;
    }
  }

  lemma Right17Bits(s: bv32)
    ensures (s ^ (s >> 17)) ^ ((s ^ (s >> 17)) >> 17) == s
  {
  }

  lemma Right17OfBits(s: bv32)
    ensures Right17(s ^ (s >> 17)) == s
  {
    Right17Bits(s);
  }

  lemma Right17Twice(s: bv32)
    ensures Right17(Right17(s)) == s
  {
    Right17OfBits(s);
    assert Right17(s) == s ^ (s >> 17);
  }

  lemma Left13Injective()
    ensures Injective(Left13)
  {
  }

  lemma Right17Injective()
    ensures Injective(Right17)
  {
    forall x ensures Right17(Right17(x)) == x { Right17Twice(x); }
    UndoneIsInjective(Right17, Right17);
  }

  lemma Left5Injective()
    ensures Injective(Left5)
  {
  }

  lemma ShiftedInjective(s: bv32, t: bv32)
    requires Shifted(s) == Shifted(t)
    ensures s == t
  {
    Left13Injective();
    Right17Injective();
    Left5Injective();
    InjectiveInTurn(Left13, Right17, Left5, s, t);
  }

  lemma ShiftedZero()
    ensures Shifted(0) == 0
  {
  }

  /** The state never becomes zero, from any input's seed, after any number of rounds. */
  lemma {:induction false} StateNeverZero(input: Bytes, n: nat)
    ensures StateAt(Seed(input), n) != 0
  {
    if n > 0 {
      StateNeverZero(input, n - 1);
      ShiftedZero();
      if StateAt(Seed(input), n) == 0 { ShiftedInjective(StateAt(Seed(input), n - 1), 0); }
    }
  }

  /** Different seeds stay different for ever. */
  lemma {:induction false} StatesNeverMerge(s: bv32, t: bv32, n: nat)
    requires StateAt(s, n) == StateAt(t, n)
    ensures s == t
  {
    if n > 0 {
      ShiftedInjective(StateAt(s, n - 1), StateAt(t, n - 1));
      StatesNeverMerge(s, t, n - 1);
    }
  }

  method Hash(input: Bytes) returns (digest: Bytes)
    ensures digest == HashOf(input)
  {
    var h: bv32 := OFFSET;
    for i := 0 to |input|
      invariant h == Fnv1a(input[..i])
    {
      assert input[..i + 1][..i] == input[..i];
      h := Absorb(h, input[i]);
    }
    assert input[..|input|] == input;
    digest := Stream(if h == 0 then 0x9e3779b9 else h);
    assert forall i :: 0 <= i < BLOCK ==> digest[i] == LowByte(StateAt(Seed(input), i + 1));
  }

  method Stream(seed: bv32) returns (digest: Bytes)
    ensures |digest| == BLOCK
    ensures forall j :: 0 <= j < BLOCK ==> digest[j] == LowByte(StateAt(seed, j + 1))
  {
    var out := new bv8[32];
    var s := seed;
    for i := 0 to 32
      invariant s == StateAt(seed, i)
      invariant forall j :: 0 <= j < i ==> out[j] == LowByte(StateAt(seed, j + 1))
    {
      s := Left13(s);
      s := Right17(s);
      s := Left5(s);
      StateUnrolls(seed, i);
      out[i] := LowByte(s);
    }
    digest := out[..];
  }

  // ------------------------------------------------------------ byte strings

  function Joined(parts: seq<Bytes>): Bytes {
    if parts == [] then [] else Joined(parts[..|parts| - 1]) + parts[|parts| - 1]
  }

  function Length(parts: seq<Bytes>): nat {
    if parts == [] then 0 else Length(parts[..|parts| - 1]) + |parts[|parts| - 1]|
  }

  lemma {:induction false} JoinedLength(parts: seq<Bytes>)
    ensures |Joined(parts)| == Length(parts)
    decreases |parts|
  {
    if parts != [] { JoinedLength(parts[..|parts| - 1]); }
  }

  lemma {:induction false} LengthGrows(parts: seq<Bytes>, i: nat)
    requires i <= |parts|
    ensures Length(parts[..i]) <= Length(parts)
    decreases |parts|
  {
    if i == |parts| {
      assert parts[..i] == parts;
    } else {
      assert parts[..|parts| - 1][..i] == parts[..i];
      LengthGrows(parts[..|parts| - 1], i);
    }
  }

  /** Copies `p` into `out` at `off`. */
  method SetAt(out: array<bv8>, p: Bytes, off: nat)
    requires off + |p| <= out.Length
    modifies out
    ensures out[..] == old(out[..off]) + p + old(out[off + |p|..])
  {
    for i := 0 to |p|
      invariant forall j :: 0 <= j < i ==> out[off + j] == p[j]
      invariant forall j :: 0 <= j < off || off + i <= j < out.Length ==> out[j] == old(out[j])
    {
      out[off + i] := p[i];
    }
    assert forall j :: off <= j < off + |p| ==> out[j] == p[j - off];
  }

  method Cat(parts: seq<Bytes>) returns (joined: Bytes)
    ensures joined == Joined(parts)
  {
    var n := 0;
    for i := 0 to |parts|
      invariant n == Length(parts[..i])
    {
      assert parts[..i + 1][..i] == parts[..i];
      n := n + |parts[i]|;
    }
    assert parts[..|parts|] == parts;
    var out := new bv8[n];
    var off := 0;
    for i := 0 to |parts|
      invariant off == Length(parts[..i]) <= n
      invariant out[..off] == Joined(parts[..i])
    {
      assert parts[..i + 1][..i] == parts[..i];
      LengthGrows(parts, i + 1);
      SetAt(out, parts[i], off);
      off := off + |parts[i]|;
    }
    joined := out[..];
  }

  // --------------------------------------------------------------- keystream

  function KeyOf(conv: Bytes): (key: Bytes)
    ensures |key| == BLOCK
  {
    HashOf(PREFIX + conv)
  }

  function BlockInput(key: Bytes, nonce: Bytes, ctr: nat): Bytes {
    key + nonce + U32(ctr)
  }

  /** Byte `i` of the one endless keystream of this key and nonce. */
  function KeyByte(key: Bytes, nonce: Bytes, i: nat): bv8 {
    HashOf(BlockInput(key, nonce, i / BLOCK))[i % BLOCK]
  }

  function KeyBytes(key: Bytes, nonce: Bytes, len: nat): (ks: Bytes)
    ensures |ks| == len
  {
    seq(len, (i: nat) => KeyByte(key, nonce, i))
  }

  method KeyStream(key: Bytes, nonce: Bytes, len: nat) returns (ks: Bytes)
    ensures ks == KeyBytes(key, nonce, len)
  {
    var out := new bv8[len];
    var off, ctr := 0, 0;
    while off < len
      invariant off == BLOCK * ctr
      invariant forall j :: 0 <= j < off && j < len ==> out[j] == KeyByte(key, nonce, j)
      decreases len - off
    {
      var input := Cat([key, nonce, U32(ctr)]);
      JoinedThree(key, nonce, U32(ctr));
      var block := Hash(input);
      var take := if len - off < 32 then len - off else 32;
      ghost var was := out[..];
      SetAt(out, block[..take], off);
      forall j | 0 <= j < off + take ensures out[j] == KeyByte(key, nonce, j) {
        assert out[..][j] == if j < off then was[j] else block[j - off];
        if j >= off { InBlock(off, ctr, j); }
      }
      off, ctr := off + 32, ctr + 1;
    }
    ks := out[..];
  }

  lemma InBlock(off: nat, ctr: nat, j: nat)
    requires off == BLOCK * ctr && off <= j < off + BLOCK
    ensures j / BLOCK == ctr && j % BLOCK == j - off
  {
  }

  lemma JoinedThree(a: Bytes, b: Bytes, c: Bytes)
    ensures Joined([a, b, c]) == a + b + c
  {
    assert [a, b, c][..2] == [a, b] && [a, b][..1] == [a] && [a][..0] == [];
    assert Joined([a]) == a && Joined([a, b]) == a + b;
  }

  /** Keystreams of different lengths are prefixes of one another. */
  lemma KeyStreamPrefix(key: Bytes, nonce: Bytes, short: nat, long: nat)
    requires short <= long
    ensures KeyBytes(key, nonce, short) == KeyBytes(key, nonce, long)[..short]
  {
  }

  // ---------------------------------------------------------------- envelopes

  function Xored(a: Bytes, b: Bytes): (c: Bytes)
    requires |a| == |b|
    ensures |c| == |a| && forall i :: 0 <= i < |c| ==> c[i] == a[i] ^ b[i]
  {
    seq(|a|, (i: nat) requires i < |a| => a[i] ^ b[i])
  }

  lemma XoredTwice(a: Bytes, b: Bytes)
    requires |a| == |b|
    ensures Xored(Xored(a, b), b) == a
  {
    forall i | 0 <= i < |a| ensures Xored(Xored(a, b), b)[i] == a[i] { XorTwice(a[i], b[i]); }
  }

  lemma XorTwice(x: bv8, y: bv8)
    ensures (x ^ y) ^ y == x
  {
  }

  method XorInto(a: Bytes, b: Bytes) returns (c: Bytes)
    requires |a| == |b|
    ensures c == Xored(a, b)
  {
    var out := new bv8[|a|];
    for i := 0 to |a|
      invariant forall j :: 0 <= j < i ==> out[j] == a[j] ^ b[j]
    {
      out[i] := a[i] ^ b[i];
    }
    c := out[..];
  }

  function TagOf(key: Bytes, nonce: Bytes, ct: Bytes): (tag: Bytes)
    ensures |tag| == TAG
  {
    HashOf(key + nonce + ct)[..TAG]
  }

  function Sealed(conv: Bytes, nonce: Bytes, pt: Bytes): Bytes {
    var key := KeyOf(conv);
    var ct := Xored(pt, KeyBytes(key, nonce, |pt|));
    nonce + TagOf(key, nonce, ct) + ct
  }

  function OpenedAs(conv: Bytes, envelope: Bytes): Opened {
    if |envelope| < NONCE + TAG then ShortEnvelope
    else
      var key, nonce, tag, ct := KeyOf(conv), envelope[..NONCE], envelope[NONCE..NONCE + TAG], envelope[NONCE + TAG..];
      if tag != TagOf(key, nonce, ct) then BadMac else Ok(Xored(ct, KeyBytes(key, nonce, |ct|)))
  }

  method Seal(conv: Bytes, nonce: Bytes, pt: Bytes) returns (envelope: Bytes)
    requires |nonce| == NONCE
    ensures envelope == Sealed(conv, nonce, pt)
  {
    var key := Hash(PREFIX + conv);
    var ks := KeyStream(key, nonce, |pt|);
    var ct := XorInto(pt, ks);
    var tagged := Cat([key, nonce, ct]);
    JoinedThree(key, nonce, ct);
    var digest := Hash(tagged);
    JoinedThree(nonce, digest[..TAG], ct);
    envelope := Cat([nonce, digest[..TAG], ct]);
  }

  method Open(conv: Bytes, envelope: Bytes) returns (result: Opened)
    ensures result == OpenedAs(conv, envelope)
  {
    if |envelope| < 20 { return ShortEnvelope; }
    var key := Hash(PREFIX + conv);
    var nonce, mac, ct := envelope[..12], envelope[12..20], envelope[20..];
    var tagged := Cat([key, nonce, ct]);
    JoinedThree(key, nonce, ct);
    var digest := Hash(tagged);
    var expected := digest[..8];
    for i := 0 to 8
      invariant forall j :: 0 <= j < i ==> mac[j] == expected[j]
    {
      if mac[i] != expected[i] { return BadMac; }
    }
    assert mac == expected;
    var ks := KeyStream(key, nonce, |ct|);
    var pt := XorInto(ct, ks);
    result := Ok(pt);
  }

  lemma Parts(nonce: Bytes, tag: Bytes, ct: Bytes)
    requires |nonce| == NONCE && |tag| == TAG
    ensures
      var e := nonce + tag + ct;
      |e| == NONCE + TAG + |ct| && e[..NONCE] == nonce && e[NONCE..NONCE + TAG] == tag && e[NONCE + TAG..] == ct
  {
  }

  /** Opening what was sealed for the same conversation returns the plaintext, for every conversation,
      nonce and plaintext, and the envelope is twenty bytes longer. */
  lemma RoundTrip(conv: Bytes, nonce: Bytes, pt: Bytes)
    requires |nonce| == NONCE
    ensures OpenedAs(conv, Sealed(conv, nonce, pt)) == Ok(pt)
    ensures |Sealed(conv, nonce, pt)| == |pt| + 20
  {
    var key := KeyOf(conv);
    var ks := KeyBytes(key, nonce, |pt|);
    var ct := Xored(pt, ks);
    Parts(nonce, TagOf(key, nonce, ct), ct);
    XoredTwice(pt, ks);
  }

  /** And conversely: an envelope opens exactly if it is the seal of what it opens to, under the nonce
      it carries. */
  lemma OpensExactlySeals(conv: Bytes, envelope: Bytes, pt: Bytes)
    ensures OpenedAs(conv, envelope) == Ok(pt)
      <==> |envelope| >= NONCE && envelope == Sealed(conv, envelope[..NONCE], pt)
  {
    if OpenedAs(conv, envelope) == Ok(pt) {
      var key, nonce, ct := KeyOf(conv), envelope[..NONCE], envelope[NONCE + TAG..];
      XoredTwice(ct, KeyBytes(key, nonce, |ct|));
      assert envelope == nonce + envelope[NONCE..NONCE + TAG] + ct;
    }
    if |envelope| >= NONCE && envelope == Sealed(conv, envelope[..NONCE], pt) {
      RoundTrip(conv, envelope[..NONCE], pt);
    }
  }

  // ------------------------------------------------ what is hashed for what

  /** The digest's input for a block holds the key, the nonce and the four big-endian bytes of its number, each in
      its place; so two blocks hash the same bytes only if key, nonce and number are the same. */
  lemma BlockInputsDiffer(key: Bytes, key': Bytes, nonce: Bytes, nonce': Bytes, k: nat, k': nat)
    requires |key| == BLOCK && |key'| == BLOCK && |nonce| == NONCE && |nonce'| == NONCE
    requires k < 0x1_0000_0000 && k' < 0x1_0000_0000
    ensures BlockInput(key, nonce, k) == BlockInput(key', nonce', k') <==> key == key' && nonce == nonce' && k == k'
  {
    var a, b := BlockInput(key, nonce, k), BlockInput(key', nonce', k');
    BlockParts(key, nonce, k);
    BlockParts(key', nonce', k');
    if a == b {
      U32ReadBack(k);
      U32ReadBack(k');
    }
  }

  lemma BlockParts(key: Bytes, nonce: Bytes, k: nat)
    requires |key| == BLOCK && |nonce| == NONCE
    ensures
      var a := BlockInput(key, nonce, k);
      |a| == 48 && a[..32] == key && a[32..44] == nonce && a[44..] == U32(k)
  {
  }

  /** Bytes 32k to 32k + 32 of the stream are the digest of the key, the nonce and the bytes of k, highest first. */
  lemma StreamBlock(key: Bytes, nonce: Bytes, len: nat, k: nat)
    requires BLOCK * k + BLOCK <= len
    ensures KeyBytes(key, nonce, len)[BLOCK * k..BLOCK * k + BLOCK]
         == HashOf(key + nonce + [Byte(k / 0x1000000), Byte(k / 0x10000), Byte(k / 0x100), Byte(k)])
  {
    var part := KeyBytes(key, nonce, len)[BLOCK * k..BLOCK * k + BLOCK];
    var digest := HashOf(key + nonce + U32(k));
    forall i | 0 <= i < BLOCK ensures part[i] == digest[i] {
      InBlock(BLOCK * k, k, BLOCK * k + i);
    }
    assert part == digest;
  }

  /** The tag is the head of the digest of key, nonce and ciphertext, and what it is taken of differs whenever any
      of the three does. */
  lemma TagInputsDiffer(key: Bytes, key': Bytes, nonce: Bytes, nonce': Bytes, ct: Bytes, ct': Bytes)
    requires |key| == BLOCK && |key'| == BLOCK && |nonce| == NONCE && |nonce'| == NONCE
    ensures TagOf(key, nonce, ct) == HashOf(key + nonce + ct)[..8]
    ensures key + nonce + ct == key' + nonce' + ct' <==> key == key' && nonce == nonce' && ct == ct'
  {
    var a, b := key + nonce + ct, key' + nonce' + ct';
    assert a[..32] == key && a[32..44] == nonce && a[44..] == ct;
    assert b[..32] == key' && b[32..44] == nonce' && b[44..] == ct';
  }

  /** The key comes from the conversation alone, under a fixed prefix: different conversations hash differently. */
  lemma KeyInputsDiffer(conv: Bytes, conv': Bytes)
    ensures KeyOf(conv) == HashOf([0x77, 0x61, 0x2d, 0x64, 0x65, 0x76, 0x2d, 0x63, 0x6f, 0x6e, 0x76, 0x2d, 0x76, 0x31, 0x3a] + conv)
    ensures PREFIX + conv == PREFIX + conv' <==> conv == conv'
  {
    assert (PREFIX + conv)[15..] == conv && (PREFIX + conv')[15..] == conv';
  }

  /** An envelope is taken apart where it was put together: 12 bytes of nonce, 8 of tag, then the ciphertext, which
      is the plaintext under the stream. */
  lemma EnvelopeLayout(conv: Bytes, nonce: Bytes, pt: Bytes)
    requires |nonce| == NONCE
    ensures
      var e := Sealed(conv, nonce, pt);
      && |e| == 20 + |pt| && e[..12] == nonce && e[12..20] == TagOf(KeyOf(conv), nonce, e[20..])
      && forall i :: 0 <= i < |pt| ==> e[20 + i] == pt[i] ^ KeyByte(KeyOf(conv), nonce, i)
  {
    var key := KeyOf(conv);
    var ct := Xored(pt, KeyBytes(key, nonce, |pt|));
    Parts(nonce, TagOf(key, nonce, ct), ct);
  }

  /** The seed is the input's own hash, but for one that is zero. */
  lemma SeedMeans(input: Bytes)
    ensures Fnv1a(input) != 0 ==> Seed(input) == Fnv1a(input)
    ensures Fnv1a(input) == 0 ==> Seed(input) == 0x9e3779b9
  {
  }

  /** Known answers: two seeds, rounds from each, and the first bytes of two digests. */
  lemma KnownAnswers()
    ensures Fnv1a([]) == 0x811c9dc5 && Fnv1a([0x61]) == 0xe40c292c
    ensures Shifted(0x811c9dc5) == 0x4622a677 && Shifted(0x4622a677) == 0x4f65af21 && Shifted(0xe40c292c) == 0x441aaeb8
    ensures HashOf([])[0] == 0x77 && HashOf([])[1] == 0x21 && HashOf([0x61])[0] == 0xb8
  {
    assert [0x61 as bv8][..0] == [];
    KnownRounds();
    FirstBytes([], 0x811c9dc5);
    FirstBytes([0x61], 0xe40c292c);
  }

  lemma FirstBytes(input: Bytes, seed: bv32)
    requires Fnv1a(input) == seed && seed != 0
    ensures HashOf(input)[0] == LowByte(Shifted(seed)) && HashOf(input)[1] == LowByte(Shifted(Shifted(seed)))
  {
    StateUnrolls(seed, 0);
    StateUnrolls(seed, 1);
    assert StateAt(seed, 0) == seed;
    assert HashOf(input)[0] == LowByte(StateAt(Seed(input), 0 + 1));
    assert HashOf(input)[1] == LowByte(StateAt(Seed(input), 1 + 1));
  }

  lemma KnownRounds()
    ensures Shifted(0x811c9dc5) == 0x4622a677 && Shifted(0x4622a677) == 0x4f65af21 && Shifted(0xe40c292c) == 0x441aaeb8
    ensures LowByte(0x4622a677) == 0x77 && LowByte(0x4f65af21) == 0x21 && LowByte(0x441aaeb8) == 0xb8
  {
  }
}
