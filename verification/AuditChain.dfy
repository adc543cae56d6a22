/**
 The tamper-evident log: hash_curr = H(hash_prev || payload) over clear payloads. The hash is any
 function with 64 lower-case hexadecimal digits as output.
 */
module AuditChain {
  import opened Wrappers
  import opened Text
  import opened Crypto

  datatype LogRow = LogRow(id: int, payload: string, hashPrev: string, hashCurr: string)

  predicate IsHex(c: char) {
    '0' <= c <= '9' || 'a' <= c <= 'f'
  }

  predicate IsDigest(s: string) {
    |s| == 64 && forall i :: 0 <= i < |s| ==> IsHex(s[i])
  }

  ghost predicate Digests(h: string -> string) {
    forall s :: IsDigest(h(s))
  }

  /** What a JSON object satisfies, and also the empty payload that is written when encoding fails. */
  predicate Unhexed(p: string) {
    p == "" || !IsHex(p[0])
  }

  predicate AllUnhexed(log: seq<LogRow>) {
    forall k :: 0 <= k < |log| ==> Unhexed(log[k].payload)
  }

  function Tail(log: seq<LogRow>): string {
    if log == [] then "" else log[|log| - 1].hashCurr
  }

  /** The log with one more row for a clear payload. */
  function Extend(h: string -> string, log: seq<LogRow>, id: int, p: string): seq<LogRow> {
    log + [LogRow(id, p, Tail(log), h(Tail(log) + p))]
  }

  predicate Linked(h: string -> string, log: seq<LogRow>, i: nat)
    requires i < |log|
  {
    && log[i].hashPrev == Tail(log[..i])
    && log[i].hashCurr == h(log[i].hashPrev + log[i].payload)
  }

  /** An intact log of clear payloads. */
  predicate Chained(h: string -> string, log: seq<LogRow>) {
    forall i :: 0 <= i < |log| ==> Linked(h, log, i)
  }

  /** What row i feeds to the hash. */
  function InputAt(log: seq<LogRow>, i: nat): string
    requires i < |log|
  {
    log[i].hashPrev + log[i].payload
  }

  /** Two different texts that the rows i of a and j of b hash to the same digest. */
  predicate CollideAt(h: string -> string, a: seq<LogRow>, i: nat, b: seq<LogRow>, j: nat) {
    i < |a| && j < |b| && InputAt(a, i) != InputAt(b, j) && h(InputAt(a, i)) == h(InputAt(b, j))
  }

  function Payloads(log: seq<LogRow>): seq<string> {
    seq(|log|, i requires 0 <= i < |log| => log[i].payload)
  }

  // ----- verification -----

  /** The id of the first row that breaks the chain, 0 for none, or the decryption failure before it. */
  function Verdict(h: string -> string, cipher: Option<Cipher>, log: seq<LogRow>, prev: string): Result<int, string> {
    if log == [] then Ok(0)
    else match Dec(cipher, log[0].payload)
      case Err(e) => Err(e)
      case Ok(clear) =>
        if log[0].hashPrev != prev || log[0].hashCurr != h(prev + clear) then Ok(log[0].id)
        else Verdict(h, cipher, log[1..], log[0].hashCurr)
  }

  /** Row i is the first that breaks the chain. */
  predicate BreaksFirst(h: string -> string, log: seq<LogRow>, i: nat) {
    i < |log| && Chained(h, log[..i]) && !Linked(h, log, i)
  }

  /** What a verification that ends with v says about the log. */
  ghost predicate Tells(h: string -> string, log: seq<LogRow>, v: Result<int, string>) {
    v.Ok? && if Chained(h, log) then v.value == 0 else exists i: nat :: BreaksFirst(h, log, i) && log[i].id == v.value
  }

  /** Over clear payloads the verdict names the first row that is not linked, or reports an intact log. */
  lemma VerdictIsFirstBreak(h: string -> string, log: seq<LogRow>)
    ensures Tells(h, log, Verdict(h, None, log, ""))
  {
    VerdictFrom(h, log, 0);
    assert log[0..] == log;
  }

  lemma {:induction false} VerdictFrom(h: string -> string, log: seq<LogRow>, k: nat)
    requires k <= |log| && Chained(h, log[..k])
    ensures Tells(h, log, Verdict(h, None, log[k..], Tail(log[..k])))
    decreases |log| - k
  {
    if k == |log| {
      assert log[..k] == log;
    } else if Linked(h, log, k) {
      var longer := log[..k + 1];
      forall i | 0 <= i < |longer| ensures Linked(h, longer, i) {
        assert longer[..i] == log[..i];
        if i < k { assert Linked(h, log[..k], i) && log[..k][..i] == log[..i]; }
      }
      assert log[k..][1..] == log[k + 1..];
      VerdictFrom(h, log, k + 1);
    } else {
      assert BreaksFirst(h, log, k);
    }
  }

  /** The first break has the id that also stands for an intact log. */
  ghost predicate Masked(h: string -> string, log: seq<LogRow>) {
    exists i: nat :: BreaksFirst(h, log, i) && log[i].id == 0
  }

  /** Exactly which logs are reported as intact: the intact ones, and those whose first broken row has id 0. */
  lemma ZeroVerdict(h: string -> string, log: seq<LogRow>)
    ensures Verdict(h, None, log, "") == Ok(0) <==> Chained(h, log) || Masked(h, log)
  {
    VerdictIsFirstBreak(h, log);
    hide Verdict;
    if Masked(h, log) {
      var i: nat :| BreaksFirst(h, log, i) && log[i].id == 0;
      assert !Linked(h, log, i);
      var j: nat :| BreaksFirst(h, log, j) && Verdict(h, None, log, "") == Ok(log[j].id);
      FirstBreakIsUnique(h, log, i, j);
      FirstBreakIsUnique(h, log, j, i);
    }
  }

  lemma FirstBreakIsUnique(h: string -> string, log: seq<LogRow>, i: nat, j: nat)
    requires BreaksFirst(h, log, i) && BreaksFirst(h, log, j)
    ensures j <= i
  {
    if i < j {
      LinkedInPrefix(h, log, i, j);
    }
  }

  lemma LinkedInPrefix(h: string -> string, log: seq<LogRow>, i: nat, j: nat)
    requires i < j <= |log| && Chained(h, log[..j])
    ensures Linked(h, log, i)
  {
    assert Linked(h, log[..j], i) && log[..j][..i] == log[..i];
  }

  /**
   One edited row is enough to hide everything: with id 0 it comes first, breaks the chain, and its id is
   read as an intact log, whatever the rows behind it hold.
   */
  lemma ZeroIdHidesTampering(h: string -> string, built: seq<LogRow>, p: string, rest: seq<LogRow>)
    requires Chained(h, built) && built != [] && h(p) != built[0].hashCurr
    ensures var found := [built[0].(id := 0, payload := p)] + rest;
      && Verdict(h, None, found, "") == Ok(0)
      && (rest == built[1..] ==> Tail(found) == Tail(built) && Payloads(found) != Payloads(built))
  {
    var found := [built[0].(id := 0, payload := p)] + rest;
    assert Linked(h, built, 0);
    assert "" + p == p;
    if rest == built[1..] {
      assert Payloads(found)[0] == p && Payloads(built)[0] == built[0].payload;
    }
  }

  lemma PrefixIsChained(h: string -> string, log: seq<LogRow>, k: nat)
    requires Chained(h, log) && k <= |log|
    ensures Chained(h, log[..k])
  {
    forall i | 0 <= i < k ensures Linked(h, log[..k], i) {
      assert log[..k][..i] == log[..i];
      assert Linked(h, log, i);
    }
  }

  lemma ExtendKeepsChained(h: string -> string, log: seq<LogRow>, id: int, p: string)
    requires Chained(h, log)
    ensures Chained(h, Extend(h, log, id, p))
  {
    var longer := Extend(h, log, id, p);
    forall i | 0 <= i < |longer| ensures Linked(h, longer, i) {
      assert longer[..i] == log[..i];
      if i < |log| { assert Linked(h, log, i); } else { assert log[..i] == log; }
    }
  }

  // ----- uniqueness -----

  /**
   The last hash determines the whole log: two intact logs that end in the same hash hold the same
   payloads in the same order, or rows i and j show a collision of the hash.
   */
  lemma {:induction false} LastHashDetermines(h: string -> string, a: seq<LogRow>, b: seq<LogRow>) returns (i: nat, j: nat)
    requires Digests(h) && Chained(h, a) && Chained(h, b)
    requires AllUnhexed(a) && AllUnhexed(b)
    requires Tail(a) == Tail(b)
    ensures Payloads(a) == Payloads(b) || CollideAt(h, a, i, b, j)
    decreases |a|
  {
    i, j := 0, 0;
    OnlyEmptyTailIsEmpty(h, a);
    OnlyEmptyTailIsEmpty(h, b);
    if a != [] {
      var m, n := |a| - 1, |b| - 1;
      assert Linked(h, a, m) && Linked(h, b, n);
      if InputAt(a, m) != InputAt(b, n) {
        return m, n;
      }
      PrevIsDigest(h, a);
      PrevIsDigest(h, b);
      SameInputSplits(a[m].hashPrev, a[m].payload, b[n].hashPrev, b[n].payload);
      PrefixIsChained(h, a, m);
      PrefixIsChained(h, b, n);
      i, j := LastHashDetermines(h, a[..m], b[..n]);
      PayloadsOneMore(a);
      PayloadsOneMore(b);
      hide Payloads, Chained, Linked, Unhexed;
      assert i < m ==> InputAt(a[..m], i) == InputAt(a, i);
      assert j < n ==> InputAt(b[..n], j) == InputAt(b, j);
    }
  }

  lemma PayloadsOneMore(a: seq<LogRow>)
    requires a != []
    ensures Payloads(a) == Payloads(a[..|a| - 1]) + [a[|a| - 1].payload]
  {}

  lemma OnlyEmptyTailIsEmpty(h: string -> string, a: seq<LogRow>)
    requires Digests(h) && Chained(h, a)
    ensures Tail(a) == "" <==> a == []
  {
    if a != [] { assert Linked(h, a, |a| - 1); }
  }

  lemma PrevIsDigest(h: string -> string, a: seq<LogRow>)
    requires Digests(h) && Chained(h, a) && a != []
    ensures var p := a[|a| - 1].hashPrev; p == Tail(a[..|a| - 1]) && (p == "" || IsDigest(p))
  {
    assert Linked(h, a, |a| - 1);
    if |a| > 1 { assert Linked(h, a, |a| - 2); }
  }

  /** A payload that starts with no hexadecimal digit cannot be mistaken for part of a digest. */
  lemma SameInputSplits(p: string, x: string, q: string, y: string)
    requires (p == "" || IsDigest(p)) && (q == "" || IsDigest(q)) && Unhexed(x) && Unhexed(y)
    requires p + x == q + y
    ensures p == q && x == y
  {
    if p != "" { assert (p + x)[0] == p[0] && IsHex(p[0]); }
    if q != "" { assert (q + y)[0] == q[0] && IsHex(q[0]); }
    assert p + x == q + y && |p| == |q|;
    assert p == (p + x)[..|p|] && q == (q + y)[..|q|];
    assert x == (p + x)[|p|..] && y == (q + y)[|q|..];
  }

  /** Verification finds nothing wrong. */
  ghost predicate Accepted(h: string -> string, log: seq<LogRow>) {
    Verdict(h, None, log, "") == Ok(0)
  }

  /** The two things about a found log that verification does not check. */
  ghost predicate Escapes(h: string -> string, log: seq<LogRow>) {
    Masked(h, log) || !AllUnhexed(log)
  }

  /**
   An edit, removal, insertion or reordering that keeps the last hash is reported, unless it shows a
   collision, writes a payload that is no JSON, or gives the first broken row the id 0.
   */
  lemma TamperingIsReported(h: string -> string, built: seq<LogRow>, found: seq<LogRow>) returns (i: nat, j: nat)
    requires Digests(h) && Chained(h, built) && AllUnhexed(built)
    requires Payloads(found) != Payloads(built) && Tail(found) == Tail(built)
    ensures Accepted(h, found) ==> CollideAt(h, built, i, found, j) || Escapes(h, found)
  {
    i, j := 0, 0;
    ZeroVerdict(h, found);
    if Chained(h, found) && AllUnhexed(found) {
      i, j := LastHashDetermines(h, built, found);
    }
  }

  /** No two rows of an intact log have the same hash, or two of its rows collide. */
  lemma HashesAreDistinct(h: string -> string, a: seq<LogRow>, m: nat, n: nat) returns (i: nat, j: nat)
    requires Digests(h) && Chained(h, a) && m < n < |a|
    requires AllUnhexed(a)
    ensures a[m].hashCurr != a[n].hashCurr || CollideAt(h, a, i, a, j)
  {
    var p, q := a[..m + 1], a[..n + 1];
    if a[m].hashCurr == a[n].hashCurr {
      PrefixIsChained(h, a, m + 1);
      PrefixIsChained(h, a, n + 1);
      i, j := LastHashDetermines(h, p, q);
      assert |Payloads(p)| < |Payloads(q)|;
    } else {
      i, j := 0, 0;
    }
  }

  /** Cutting off the newest rows is invisible: this is why uniqueness is relative to the last hash. */
  lemma SuffixDropVerifies(h: string -> string, built: seq<LogRow>, k: nat)
    requires Chained(h, built) && k <= |built|
    ensures Verdict(h, None, built[..k], "") == Ok(0)
  {
    PrefixIsChained(h, built, k);
    VerdictIsFirstBreak(h, built[..k]);
  }

  /**
   Without the condition on payloads uniqueness fails for every hash, with no collision involved: every
   intact log of two or more rows has a twin of one row.
   */
  lemma HexPayloadIsAmbiguous(h: string -> string, log: seq<LogRow>, id: int)
    requires Chained(h, log) && |log| >= 2
    ensures var n := |log| - 1;
      var twin := [LogRow(id, Tail(log[..n]) + log[n].payload, "", log[n].hashCurr)];
      && Chained(h, twin) && Tail(twin) == Tail(log) && Payloads(twin) != Payloads(log)
      && InputAt(twin, 0) == InputAt(log, n) && (Digests(h) ==> !AllUnhexed(twin))
  {
    var n := |log| - 1;
    var twin := [LogRow(id, Tail(log[..n]) + log[n].payload, "", log[n].hashCurr)];
    assert Linked(h, log, n) && Linked(h, log, n - 1);
    assert "" + twin[0].payload == twin[0].payload;
    assert |Payloads(twin)| == 1 && |Payloads(log)| == n + 1;
    if Digests(h) {
      assert IsDigest(Tail(log[..n])) && twin[0].payload[0] == Tail(log[..n])[0];
      assert !Unhexed(twin[0].payload);
    }
  }

  // ----- encryption at rest -----

  /** Stored is the log clear with some payloads encrypted and the others left as they were. */
  ghost predicate PartlySealed(c: Cipher, stored: seq<LogRow>, clear: seq<LogRow>) {
    && |stored| == |clear|
    && forall i :: 0 <= i < |clear| ==>
        && stored[i].(payload := clear[i].payload) == clear[i]
        && ((stored[i].payload == clear[i].payload && !HasPrefix(clear[i].payload, ENC_PREFIX))
            || exists n :: stored[i].payload == Encrypt(c, n, clear[i].payload))
  }

  /** Switching encryption on after any rows, in any pattern, leaves every verdict as it was in clear. */
  lemma {:induction false} EncryptionIsTransparent(h: string -> string, c: Cipher, stored: seq<LogRow>, clear: seq<LogRow>, prev: string)
    requires Sound(c) && PartlySealed(c, stored, clear)
    ensures Verdict(h, Some(c), stored, prev) == Verdict(h, None, clear, prev)
  {
    if clear != [] {
      assert stored[0].(payload := clear[0].payload) == clear[0];
      if n :| stored[0].payload == Encrypt(c, n, clear[0].payload) {
        DecUndoesEnc(Some(c), n, clear[0].payload);
      }
      assert Dec(Some(c), stored[0].payload) == Ok(clear[0].payload);
      forall i | 0 <= i < |clear| - 1
        ensures stored[1..][i] == stored[i + 1] && clear[1..][i] == clear[i + 1]
      {}
      EncryptionIsTransparent(h, c, stored[1..], clear[1..], clear[0].hashCurr);
    }
  }

  /** A JSON object never carries the tag. */
  lemma ObjectsAreUntagged(p: string)
    requires p != "" && p[0] == '{'
    ensures Unhexed(p) && !HasPrefix(p, ENC_PREFIX)
  {
    assert ENC_PREFIX[0] == 'e';
  }

  /** The tag on a clear payload would be taken for a ciphertext. */
  lemma TaggedClearPayloadIsMisread(h: string -> string, c: Cipher, sealed: string)
    requires c.open(sealed) == None
    ensures var log := Extend(h, [], 1, ENC_PREFIX + sealed);
      Verdict(h, None, log, "") == Ok(0) && Verdict(h, Some(c), log, "").Err?
  {
    ExtendKeepsChained(h, [], 1, ENC_PREFIX + sealed);
    VerdictIsFirstBreak(h, Extend(h, [], 1, ENC_PREFIX + sealed));
    assert (ENC_PREFIX + sealed)[|ENC_PREFIX|..] == sealed;
  }
}
