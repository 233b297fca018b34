/**
 * The hash-linked integrity log: one record per rendered frame, each
 * holding its own index and the hash of the record before it.
 */
module IntegrityChain {
  import opened Patterns

  datatype Option<T> = None | Some(value: T)

  predicate IsHexDigit(c: char) {
    '0' <= c <= '9' || 'a' <= c <= 'f'
  }

  predicate IsHex(s: string) {
    forall k :: 0 <= k < |s| ==> IsHexDigit(s[k])
  }

  /**
   * What a SHA-256 hex digest is: 64 lower-case hex digits. The digest
   * function itself is not modelled; it is a parameter of this type.
   */
  type HexDigest = s: string | |s| == 64 && IsHex(s)
    witness seq(64, _ => '0')

  /** Hashes are the first 16 hex digits of the digest. */
  const HashLength: nat := 16

  /** The previous hash recorded in the first block: sixteen zeros. */
  const Sentinel: string := "0000000000000000"

  predicate IsHash(h: string) {
    |h| == HashLength && IsHex(h)
  }

  /** The number a string of decimal digits spells, most significant digit first. */
  function DigitsValue(s: string): int
  {
    if s == [] then 0 else 10 * DigitsValue(s[..|s| - 1]) + (s[|s| - 1] as int - '0' as int)
  }

  /** Decimal text of `n`, as string formatting writes an integer. */
  function DecimalString(n: nat): (s: string)
    ensures |s| >= 1
    ensures forall k :: 0 <= k < |s| ==> '0' <= s[k] <= '9'
  {
    var digit := ['0' + (n % 10) as char];
    if n < 10 then digit else DecimalString(n / 10) + digit
  }

  /** The decimal text spells `n` and has no leading zero. */
  lemma {:induction false} DecimalStringValue(n: nat)
    ensures DigitsValue(DecimalString(n)) == n
    ensures |DecimalString(n)| > 1 ==> DecimalString(n)[0] != '0'
  {
    if n >= 10 {
      DecimalStringValue(n / 10);
      var s := DecimalString(n);
      assert s[..|s| - 1] == DecimalString(n / 10);
    }
  }

  /** The number of capital letters `t` starts with. */
  function LetterPrefix(t: string): nat
  {
    if t != [] && 'A' <= t[0] <= 'Z' then 1 + LetterPrefix(t[1..]) else 0
  }

  /** Capitals followed by a digit: the capitals are exactly the leading letters. */
  lemma {:induction false} LetterPrefixOf(x: string, d: string)
    requires forall k :: 0 <= k < |x| ==> 'A' <= x[k] <= 'Z'
    requires d != [] && '0' <= d[0] <= '9'
    ensures LetterPrefix(x + d) == |x|
  {
    if x != [] {
      LetterPrefixOf(x[1..], d);
      assert (x + d)[1..] == x[1..] + d;
    }
  }

  /**
   * The text hashed for a block determines its pattern and its length: a
   * name is all capitals and the length all digits, so they cannot run
   * into each other.
   */
  lemma PatternDataInjective(a: Category, m: nat, b: Category, n: nat)
    requires Name(a) + DecimalString(m) == Name(b) + DecimalString(n)
    ensures a == b && m == n
  {
    var x, y, t := Name(a), Name(b), Name(a) + DecimalString(m);
    LetterPrefixOf(x, DecimalString(m));
    LetterPrefixOf(y, DecimalString(n));
    assert x == t[..|x|] == y;
    NameInjective(a, b);
    assert DecimalString(m) == t[|x|..] == DecimalString(n);
    DecimalStringValue(m);
    DecimalStringValue(n);
  }

  /**
   * hash_pattern: the digest of the pattern text, the previous hash and the
   * clock reading `now`, cut to its first 16 characters.
   */
  function HashPattern(digest: string -> HexDigest, patternData: string, prevHash: string, now: string): (h: string)
    ensures IsHash(h)
    ensures h == digest(patternData + prevHash + now)[..HashLength]
  {
    digest(patternData + prevHash + now)[..HashLength]
  }

  /**
   * The hash `add_to_chain` computes for a new block: the pattern name and
   * length, as text, digested with the chain's previous hash and `hashedAt`.
   */
  function BlockHash(digest: string -> HexDigest, chain: seq<Record>, pattern: Category, length: nat, hashedAt: string): (h: string)
    ensures IsHash(h)
  {
    HashPattern(digest, Name(pattern) + DecimalString(length), PrevHash(chain), hashedAt)
  }

  /** One block of the chain. */
  datatype Record = Record(
    index: nat,
    pattern: Category,
    length: nat,
    hash: string,
    prevHash: string,
    timestamp: string)

  /** The chain invariant: indices count up from 0, hashes link, and every hash is 16 hex digits. */
  predicate Linked(chain: seq<Record>) {
    && (forall k :: 0 <= k < |chain| ==> chain[k].index == k && IsHash(chain[k].hash))
    && (chain != [] ==> chain[0].prevHash == Sentinel)
    && (forall k :: 0 < k < |chain| ==> chain[k].prevHash == chain[k - 1].hash)
  }

  /** The previous hash a new block records: the last block's hash, or the sentinel. */
  function PrevHash(chain: seq<Record>): (h: string)
    ensures chain == [] ==> h == Sentinel
    ensures chain != [] ==> h == chain[|chain| - 1].hash
    ensures Linked(chain) ==> IsHash(h)
  {
    if chain == [] then Sentinel else chain[|chain| - 1].hash
  }

  /** The hash of the last block, if any (the `last_hash` of the saved statistics). */
  function LastHash(chain: seq<Record>): (h: Option<string>)
    ensures h.None? <==> chain == []
    ensures h.Some? ==> h.value == chain[|chain| - 1].hash
  {
    if chain == [] then None else Some(chain[|chain| - 1].hash)
  }

  /** The chain after `add_to_chain` stored a block with the given fields. */
  function Appended(chain: seq<Record>, pattern: Category, length: nat, hash: string, timestamp: string): (r: seq<Record>)
    ensures |r| == |chain| + 1 && r[..|chain|] == chain
    ensures r[|chain|].index == |chain| && r[|chain|].hash == hash && r[|chain|].pattern == pattern
    ensures r[|chain|].length == length && r[|chain|].timestamp == timestamp
    ensures chain == [] ==> r[0].prevHash == Sentinel
    ensures chain != [] ==> r[|chain|].prevHash == chain[|chain| - 1].hash
    ensures LastHash(r) == Some(hash)
  {
    chain + [Record(|chain|, pattern, length, hash, PrevHash(chain), timestamp)]
  }

  /**
   * A one-block extension is linked exactly when the chain was and the new
   * block carries the next index, a well-formed hash and the previous hash.
   */
  lemma LinkedExtend(chain: seq<Record>, r: Record)
    ensures Linked(chain + [r]) <==>
      Linked(chain) && r.index == |chain| && IsHash(r.hash) && r.prevHash == PrevHash(chain)
  {
    var c := chain + [r];
    assert forall k :: 0 <= k < |chain| ==> c[k] == chain[k];
    assert c[|chain|] == r;
    if Linked(chain) && r.index == |chain| && IsHash(r.hash) && r.prevHash == PrevHash(chain) {
      forall k | 0 < k < |c|
        ensures c[k].prevHash == c[k - 1].hash
      {
        if k < |chain| {
          assert c[k - 1] == chain[k - 1];
        }
      }
    }
  }

  /** Appending a block with a well-formed hash keeps the chain linked. */
  lemma AppendedLinked(chain: seq<Record>, pattern: Category, length: nat, hash: string, timestamp: string)
    requires Linked(chain) && IsHash(hash)
    ensures Linked(Appended(chain, pattern, length, hash, timestamp))
  {
    LinkedExtend(chain, Record(|chain|, pattern, length, hash, PrevHash(chain), timestamp));
  }

  /** Every prefix of a linked chain is linked. */
  lemma LinkedPrefix(chain: seq<Record>, n: nat)
    requires Linked(chain) && n <= |chain|
    ensures Linked(chain[..n])
  {
    var p := chain[..n];
    assert forall k :: 0 <= k < n ==> p[k] == chain[k];
  }

  /**
   * Every linked chain is what repeated appends build: dropping its last
   * block leaves a linked chain, and appending that block again restores it.
   */
  lemma LinkedIsAppended(chain: seq<Record>)
    requires Linked(chain) && chain != []
    ensures var n := |chain| - 1; var last := chain[n];
      Linked(chain[..n]) && chain == Appended(chain[..n], last.pattern, last.length, last.hash, last.timestamp)
  {
    var n := |chain| - 1;
    LinkedPrefix(chain, n);
    assert chain == chain[..n] + [chain[n]];
    LinkedExtend(chain[..n], chain[n]);
  }

  /**
   * The pattern chain. Blocks are only ever appended; `Add` is the one
   * operation that changes it.
   */
  class PatternChain {
    var records: seq<Record>

    ghost predicate Valid()
      reads this
    {
      Linked(records)
    }

    constructor ()
      ensures Valid() && records == []
    {
      records := [];
    }

    /**
     * add_to_chain: hashes the pattern type and length with the previous
     * hash and the clock reading `hashedAt`, appends one block stamped
     * `recordedAt`, and returns the new hash.
     */
    method Add(pattern: Category, length: nat, digest: string -> HexDigest, hashedAt: string, recordedAt: string)
      returns (h: string)
      requires Valid()
      modifies this
      ensures Valid()
      ensures h == BlockHash(digest, old(records), pattern, length, hashedAt)
      ensures records == Appended(old(records), pattern, length, h, recordedAt)
      ensures records[|records| - 1].hash == h
    {
      var prevHash := if records == [] then Sentinel else records[|records| - 1].hash;
      h := HashPattern(digest, Name(pattern) + DecimalString(length), prevHash, hashedAt);
      AppendedLinked(records, pattern, length, h, recordedAt);
      records := records + [Record(|records|, pattern, length, h, prevHash, recordedAt)];
    }
  }
}
