/**
 Content addresses of KV pages. A page of 16 tokens is addressed by a digest that chains over
 all pages before it, so an address should stand for a whole prompt prefix. It does, up to
 collisions of the hash: two equal addresses come from the same page index of equal
 prefixes, or exhibit two different messages with the same digest.
 */
module KvPages {

  const PAGE_TOKENS: nat := 16
  const DIGEST_BYTES: nat := 32

  type Byte = b: nat | b < 256
  type Token = t: nat | t < 0x1_0000_0000

  type Hash = seq<Byte> -> seq<Byte>

  /** A hash with digests of 32 bytes, as SHA-256 has (FIPS 180-4). */
  ghost predicate Digests(h: Hash) {
    forall m :: |h(m)| == DIGEST_BYTES
  }

  /** Four bytes, least significant first. */
  function PackToken(t: Token): (r: seq<Byte>)
    ensures |r| == 4
  {
    [t % 256, t / 256 % 256, t / 65536 % 256, t / 16777216]
  }

  function Pack(tokens: seq<Token>): (r: seq<Byte>)
    ensures |r| == 4 * |tokens|
  {
    if tokens == [] then [] else PackToken(tokens[0]) + Pack(tokens[1..])
  }

  function Pages(tokens: seq<Token>): nat {
    |tokens| / PAGE_TOKENS
  }

  function Page(tokens: seq<Token>, p: nat): seq<Token>
    requires p < Pages(tokens)
  {
    tokens[p * PAGE_TOKENS..(p + 1) * PAGE_TOKENS]
  }

  /** What is hashed for page p: the previous digest (nothing for the first page), then the page. */
  function Message(h: Hash, tokens: seq<Token>, p: nat): seq<Byte>
    requires p < Pages(tokens)
    decreases p, 0
  {
    (if p == 0 then [] else Digest(h, tokens, p - 1)) + Pack(Page(tokens, p))
  }

  function Digest(h: Hash, tokens: seq<Token>, p: nat): seq<Byte>
    requires p < Pages(tokens)
    decreases p, 1
  {
    h(Message(h, tokens, p))
  }

  /** One digest per full page; the tokens after the last full page have none. */
  method PageChainHashes(h: Hash, tokens: seq<Token>) returns (hashes: seq<seq<Byte>>)
    ensures |hashes| == Pages(tokens) && forall p :: 0 <= p < |hashes| ==> hashes[p] == Digest(h, tokens, p)
  {
    hashes := [];
    var digest: seq<Byte> := [];
    var pos := 0;
    while pos < |tokens| / PAGE_TOKENS * PAGE_TOKENS
      invariant pos == |hashes| * PAGE_TOKENS && |hashes| <= Pages(tokens)
      invariant forall p :: 0 <= p < |hashes| ==> hashes[p] == Digest(h, tokens, p)
      invariant digest == if hashes == [] then [] else hashes[|hashes| - 1]
    {
      var page := tokens[pos..pos + PAGE_TOKENS];
      assert page == Page(tokens, |hashes|);
      digest := h(digest + Pack(page));
      hashes := hashes + [digest];
      pos := pos + PAGE_TOKENS;
    }
  }

  /** The number that four bytes stand for, least significant first. */
  function Value(b: seq<Byte>): nat
    requires |b| == 4
  {
    b[0] as nat + 256 * b[1] as nat + 65536 * b[2] as nat + 16777216 * b[3] as nat
  }

  lemma {:induction false} PackedToken(t: Token)
    ensures Value(PackToken(t)) == t
  {
    assert t / 256 / 256 == t / 65536 && t / 65536 / 256 == t / 16777216;
  }

  /** Token i is in bytes 4 i to 4 i + 3. */
  lemma {:induction false} PackedAt(tokens: seq<Token>, i: nat)
    requires i < |tokens|
    ensures Value(Pack(tokens)[4 * i..4 * i + 4]) == tokens[i]
  {
    var first, rest := PackToken(tokens[0]), Pack(tokens[1..]);
    if i == 0 {
      assert Pack(tokens)[0..4] == first;
      PackedToken(tokens[0]);
    } else {
      assert Pack(tokens)[4 * i..4 * i + 4] == rest[4 * (i - 1)..4 * (i - 1) + 4];
      PackedAt(tokens[1..], i - 1);
    }
  }

  /** The message of a page: the digest of the page before it, and then the page's 16 tokens, four bytes each. */
  lemma {:induction false} MessageLayout(h: Hash, tokens: seq<Token>, p: nat, i: nat)
    requires p < Pages(tokens) && i < PAGE_TOKENS
    ensures var message := Message(h, tokens, p); var before := if p == 0 then [] else Digest(h, tokens, p - 1);
            && |message| == |before| + 64 && message[..|before|] == before
            && Value(message[|before| + 4 * i..|before| + 4 * i + 4]) == tokens[p * PAGE_TOKENS + i]
  {
    var message, page := Message(h, tokens, p), Page(tokens, p);
    var before := if p == 0 then [] else Digest(h, tokens, p - 1);
    assert message == before + Pack(page);
    hide Message, Digest, Pack;
    PartOf(before, Pack(page), 4 * i);
    PackedAt(page, i);
    TokenOfPage(tokens, p, i);
  }

  lemma {:induction false} PartOf(a: seq<Byte>, b: seq<Byte>, k: nat)
    requires k + 4 <= |b|
    ensures (a + b)[..|a|] == a && (a + b)[|a| + k..|a| + k + 4] == b[k..k + 4]
  {
  }

  lemma {:induction false} TokenOfPage(tokens: seq<Token>, p: nat, i: nat)
    requires p < Pages(tokens) && i < PAGE_TOKENS
    ensures |Page(tokens, p)| == PAGE_TOKENS && Page(tokens, p)[i] == tokens[p * PAGE_TOKENS + i]
  {
  }

  lemma {:induction false} PackInjective(s: seq<Token>, t: seq<Token>)
    requires Pack(s) == Pack(t)
    ensures s == t
  {
    forall i | 0 <= i < |s| ensures s[i] == t[i] {
      PackedAt(s, i);
      PackedAt(t, i);
    }
  }

  /** Two different messages with one digest, both hashed while addressing a and b. */
  ghost predicate Collides(h: Hash, a: seq<Token>, b: seq<Token>, i: nat, j: nat) {
    i < Pages(a) && j < Pages(b) && Message(h, a, i) != Message(h, b, j) && Digest(h, a, i) == Digest(h, b, j)
  }

  lemma {:induction false} SamePrefixSameDigest(h: Hash, a: seq<Token>, b: seq<Token>, p: nat)
    requires p < Pages(a) && p < Pages(b) && a[..(p + 1) * PAGE_TOKENS] == b[..(p + 1) * PAGE_TOKENS]
    ensures Digest(h, a, p) == Digest(h, b, p)
  {
    var n := (p + 1) * PAGE_TOKENS;
    assert Page(a, p) == a[..n][p * PAGE_TOKENS..] && Page(b, p) == b[..n][p * PAGE_TOKENS..];
    if p > 0 {
      assert a[..n][..p * PAGE_TOKENS] == a[..p * PAGE_TOKENS] && b[..n][..p * PAGE_TOKENS] == b[..p * PAGE_TOKENS];
      SamePrefixSameDigest(h, a, b, p - 1);
    }
  }

  /** Equal messages come from the same page index, equal pages and equal previous digests. */
  lemma {:induction false} SameMessage(h: Hash, a: seq<Token>, b: seq<Token>, p: nat, q: nat)
    requires Digests(h) && p < Pages(a) && q < Pages(b) && Message(h, a, p) == Message(h, b, q)
    ensures (p == 0 <==> q == 0) && Page(a, p) == Page(b, q)
    ensures p > 0 ==> Digest(h, a, p - 1) == Digest(h, b, q - 1)
  {
    var da, db := if p == 0 then [] else Digest(h, a, p - 1), if q == 0 then [] else Digest(h, b, q - 1);
    var ma, mb := Message(h, a, p), Message(h, b, q);
    assert |da| == |db|;
    assert da == ma[..|da|] && db == mb[..|db|];
    assert Pack(Page(a, p)) == ma[|da|..] && Pack(Page(b, q)) == mb[|db|..];
    PackInjective(Page(a, p), Page(b, q));
  }

  lemma {:induction false} DigestFixesPrefix(h: Hash, a: seq<Token>, b: seq<Token>, p: nat, q: nat) returns (i: nat, j: nat)
    requires Digests(h) && p < Pages(a) && q < Pages(b) && Digest(h, a, p) == Digest(h, b, q)
    ensures (p == q && a[..(p + 1) * PAGE_TOKENS] == b[..(p + 1) * PAGE_TOKENS]) || Collides(h, a, b, i, j)
  {
    i, j := p, q;
    if Message(h, a, p) == Message(h, b, q) {
      SameMessage(h, a, b, p, q);
      if p > 0 {
        i, j := DigestFixesPrefix(h, a, b, p - 1, q - 1);
      }
      var n := p * PAGE_TOKENS;
      if p == q && a[..n] == b[..n] {
        assert a[..n + PAGE_TOKENS] == a[..n] + Page(a, p) && b[..n + PAGE_TOKENS] == b[..n] + Page(b, p);
      }
    }
  }

  /**
   Addresses stand for prefixes: unless hashing these two prompts runs into a collision, two
   page addresses are equal exactly when the pages have the same index and the prompts agree
   on all tokens up to the end of that page.
   */
  lemma {:induction false} AddressesArePrefixes(h: Hash, a: seq<Token>, b: seq<Token>, p: nat, q: nat)
    requires Digests(h) && p < Pages(a) && q < Pages(b)
    requires forall i: nat, j: nat :: !Collides(h, a, b, i, j)
    ensures Digest(h, a, p) == Digest(h, b, q) <==> p == q && a[..(p + 1) * PAGE_TOKENS] == b[..(p + 1) * PAGE_TOKENS]
  {
    if Digest(h, a, p) == Digest(h, b, q) {
      var i, j := DigestFixesPrefix(h, a, b, p, q);
    } else if p == q && a[..(p + 1) * PAGE_TOKENS] == b[..(p + 1) * PAGE_TOKENS] {
      SamePrefixSameDigest(h, a, b, p);
    }
  }
}
