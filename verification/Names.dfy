/**
 Names arctern writes into ZFS: step and last-received hold tags, and the
 replication cursor (`daemon/src/jobs/push/holds.rs`), over identifiers as
 `validate_identifier` accepts them (`crates/config/src/lib.rs`).
 */
module Names {
  const CURSOR_PREFIX := "arctern_cursor_G_"

  function HexDigit(d: nat): char
    requires d < 16
  {
    "0123456789abcdef"[d]
  }

  function Hex(n: nat): string {
    if n < 16 then [HexDigit(n)] else Hex(n / 16) + [HexDigit(n % 16)]
  }

  /** A tag on a snapshot, named in full. */
  datatype Hold = Hold(snapshot: string, tag: string)

  function StepHoldTag(job: string, peer: string): string {
    "arctern_step_J_" + job + "_P_" + peer
  }

  function LastHoldTag(job: string): string {
    "arctern_last_J_" + job
  }

  /** What every cursor of one (job, peer) ends with. */
  function CursorTail(job: string, peer: string): string {
    "_J_" + job + "_P_" + peer
  }

  function CursorLeaf(guid: nat, job: string, peer: string): string {
    CURSOR_PREFIX + Hex(guid) + CursorTail(job, peer)
  }

  predicate EndsWith(s: string, t: string) {
    |t| <= |s| && s[|s| - |t|..] == t
  }

  predicate IsCursorLeaf(leaf: string, job: string, peer: string) {
    CURSOR_PREFIX <= leaf && EndsWith(leaf, CursorTail(job, peer))
  }

  // ------------------------------------------------------------- identifiers

  predicate Alphanumeric(c: char) {
    'a' <= c <= 'z' || 'A' <= c <= 'Z' || '0' <= c <= '9'
  }

  predicate NameChar(c: char) {
    Alphanumeric(c) || c in "_-.:+"
  }

  predicate ValidComponent(s: string) {
    s != [] && Alphanumeric(s[0]) && forall c | c in s :: NameChar(c)
  }

  /** `_`, `m`, `_` at position `k`. */
  predicate MarkerAt(s: string, k: int, m: char) {
    0 <= k && k + 3 <= |s| && s[k] == '_' && s[k + 1] == m && s[k + 2] == '_'
  }

  predicate HasMarker(s: string, m: char) {
    exists k | 0 <= k < |s| :: MarkerAt(s, k, m)
  }

  predicate ValidIdentifier(s: string) {
    && s != []
    && |s| <= 64
    && ValidComponent(s)
    && !HasMarker(s, 'J')
    && !HasMarker(s, 'P')
  }

  predicate StartsWithMarkerTail(s: string, m: char) {
    |s| >= 2 && s[0] == m && s[1] == '_'
  }

  predicate EndsInMarkerHead(s: string, m: char) {
    |s| >= 2 && s[|s| - 2] == '_' && s[|s| - 1] == m
  }

  // ------------------------------------------------------------- shared tails

  /** The two pairs write the same tail: they are the same pair, or a leading `P_`
      of a peer reads as a trailing `_P` of a job. */
  predicate SameTail(job: string, peer: string, job': string, peer': string) {
    || (job == job' && peer == peer')
    || (job' == job + "_P" && peer == "P_" + peer')
    || (job == job' + "_P" && peer' == "P_" + peer)
  }

  /** The cursors of the first pair end in the tail of the second: the tails are
      the same, possibly after a leading `J_` of the first job, or the separators
      of the first pair read as the names of the second. */
  predicate Claimed(job: string, peer: string, job': string, peer': string) {
    || SameTail(job, peer, job', peer')
    || (StartsWithMarkerTail(job, 'J') && SameTail(job[2..], peer, job', peer'))
    || ((job == "J" || EndsInMarkerHead(job, 'J')) && job' == "P" && peer == "P_" + peer')
  }


  /** What follows the `_J_` of a tail. */
  lemma TailBody(job: string, peer: string)
    ensures CursorTail(job, peer) == "_J_" + (job + "_P_" + peer)
    ensures CursorTail(job, peer)[3..] == job + "_P_" + peer
  {
  }

  lemma SameTailIsShared(job: string, peer: string, job': string, peer': string)
    requires SameTail(job, peer, job', peer')
    ensures CursorTail(job, peer) == CursorTail(job', peer')
  {
    if job' == job + "_P" && peer == "P_" + peer' {
      assert job + "_P_" + ("P_" + peer') == job + "_P" + "_P_" + peer';
    } else if job == job' + "_P" && peer' == "P_" + peer {
      assert job' + "_P_" + ("P_" + peer) == job' + "_P" + "_P_" + peer;
    }
  }

  /** Where a shared tail is cut differently, the longer job ends in `_P`. */
  lemma LongerJob(job: string, peer: string, job': string, peer': string)
    requires job + "_P_" + peer == job' + "_P_" + peer' && |job| < |job'| && !HasMarker(job', 'P')
    ensures job' == job + "_P" && peer == "P_" + peer'
  {
    var s, a, a' := job + "_P_" + peer, |job|, |job'|;
    assert MarkerAt(s, a, 'P');
    assert s == job' + "_P_" + peer';
    if a + 3 <= a' {
      assert MarkerAt(job', a, 'P');
    }
    assert s[a'] == '_' && s[a' + 1] == 'P' && s[a' + 2] == '_';
    assert a' == a + 2;
    assert job' == s[..a'] && job == s[..a] && s[a] == '_' && s[a + 1] == 'P';
    assert job' == job + "_P";
    assert peer == s[a + 3..] && peer' == s[a' + 3..];
    assert peer[0] == s[a + 3] == 'P' && peer[1] == s[a + 4] == '_';
    assert peer[2..] == s[a + 5..] == peer';
    assert peer == [peer[0], peer[1]] + peer[2..];
  }

  /** Two tails are equal exactly when the pairs are, up to that reading. */
  lemma TailsAreEqualIff(job: string, peer: string, job': string, peer': string)
    requires !HasMarker(job, 'P') && !HasMarker(job', 'P')
    ensures CursorTail(job, peer) == CursorTail(job', peer') <==> SameTail(job, peer, job', peer')
  {
    if SameTail(job, peer, job', peer') {
      SameTailIsShared(job, peer, job', peer');
    }
    TailBody(job, peer);
    TailBody(job', peer');
    if CursorTail(job, peer) == CursorTail(job', peer') {
      var s := job + "_P_" + peer;
      assert s == job' + "_P_" + peer';
      if |job| < |job'| {
        LongerJob(job, peer, job', peer');
      } else if |job'| < |job| {
        LongerJob(job', peer', job, peer);
      } else {
        assert job == s[..|job|] == job';
        assert peer == s[|job| + 3..] == peer';
      }
    }
  }

  lemma TailLayout(job: string, peer: string)
    ensures
      var t, a := CursorTail(job, peer), |job|;
      && |t| == 6 + a + |peer|
      && t[0] == '_' && t[1] == 'J' && t[2] == '_'
      && t[3 + a] == '_' && t[4 + a] == 'P' && t[5 + a] == '_'
      && (forall k | 0 <= k < a :: t[3 + k] == job[k])
      && (forall k | 0 <= k < |peer| :: t[6 + a + k] == peer[k])
  {
  }

  /** Where a marker can sit inside the tail of accepted names: at its two
      separators, or across the join of a separator with a name. */
  lemma MarkersInTail(job: string, peer: string, m: char)
    requires m == 'J' || m == 'P'
    requires ValidIdentifier(job) && ValidIdentifier(peer)
    ensures forall k | 3 <= k <= |job| :: !MarkerAt(CursorTail(job, peer), k, m)
    ensures forall k | 6 + |job| <= k :: !MarkerAt(CursorTail(job, peer), k, m)
    ensures !MarkerAt(CursorTail(job, peer), 1, m)
    ensures !MarkerAt(CursorTail(job, peer), |job| + 4, m)
    ensures !MarkerAt(CursorTail(job, peer), |job| + 2, m)
    ensures MarkerAt(CursorTail(job, peer), |job| + 5, m) ==> StartsWithMarkerTail(peer, m)
    ensures MarkerAt(CursorTail(job, peer), 2, m) ==> StartsWithMarkerTail(job, m) || |job| == 1
    ensures MarkerAt(CursorTail(job, peer), |job| + 3, m) ==> m == 'P'
  {
    var t, a := CursorTail(job, peer), |job|;
    TailLayout(job, peer);
    forall k | 3 <= k <= a
      ensures MarkerAt(t, k, m) ==> MarkerAt(job, k - 3, m)
    {
      assert t[k] == job[k - 3];
    }
    forall k | 6 + a <= k && MarkerAt(t, k, m)
      ensures MarkerAt(peer, k - 6 - a, m)
    {
      assert t[k] == peer[k - 6 - a];
    }
    assert t[6 + a] == peer[0];
    if |peer| >= 2 {
      assert t[7 + a] == peer[1];
    }
    assert t[3] == job[0];
    if a >= 2 {
      assert t[4] == job[1];
    }
  }

  /** A tail found inside a string brings its two markers along. */
  lemma EmbeddedTail(s: string, d: nat, job: string, peer: string)
    requires d <= |s| && s[d..] == CursorTail(job, peer)
    ensures MarkerAt(s, d, 'J') && MarkerAt(s, d + 3 + |job|, 'P')
  {
    TailLayout(job, peer);
    forall k | d <= k < |s|
      ensures s[k] == CursorTail(job, peer)[k - d]
    {
      assert s[k] == s[d..][k - d];
    }
  }

  // ----------------------------------------------------------------- ownership

  /** A tail strictly inside another starts after the `_J` of a job `J_…`, or at
      a `_J` just before the second separator. */
  lemma InnerTailPlaces(job: string, peer: string, job': string, peer': string, d: nat)
    requires ValidIdentifier(job) && ValidIdentifier(peer)
    requires 0 < d <= |CursorTail(job, peer)| && CursorTail(job, peer)[d..] == CursorTail(job', peer')
    ensures (d == 2 && StartsWithMarkerTail(job, 'J'))
            || (d == |job| + 1 && (job == "J" || EndsInMarkerHead(job, 'J')))
  {
    var t, a := CursorTail(job, peer), |job|;
    TailLayout(job, peer);
    MarkersInTail(job, peer, 'J');
    EmbeddedTail(t, d, job', peer');
    if d == a + 5 {
      PeerHidesNoTail(job, peer, job', peer');
    } else if d == 2 && a == 1 {
      assert t[3] == job[0];
      assert job == [job[0]];
    } else if d == 2 {
      assert t[3] == job[0] && t[4] == job[1];
    } else if d == a + 1 {
      assert t[a + 1] == job[a - 2] && t[a + 2] == job[a - 1];
    }
  }

  /** A peer `J_…` brings no tail along: it would have to contain a `_P_`. */
  lemma PeerHidesNoTail(job: string, peer: string, job': string, peer': string)
    requires ValidIdentifier(job) && ValidIdentifier(peer)
    ensures |job| + 5 <= |CursorTail(job, peer)|
    ensures CursorTail(job, peer)[|job| + 5..] != CursorTail(job', peer')
  {
    var t, d := CursorTail(job, peer), |job| + 5;
    MarkersInTail(job, peer, 'P');
    if t[d..] == CursorTail(job', peer') {
      EmbeddedTail(t, d, job', peer');
    }
  }

  /** What is left of the first tail after a leading `J_` of its job. */
  lemma CutAfterMarker(job: string, peer: string)
    requires StartsWithMarkerTail(job, 'J')
    ensures CursorTail(job, peer)[2..] == CursorTail(job[2..], peer)
  {
    assert job == "J_" + job[2..];
    assert "_J_" + ("J_" + job[2..]) + "_P_" + peer == "_J" + ("_J_" + job[2..] + "_P_" + peer);
  }

  /** What is left of it from a `_J` before the second separator. */
  lemma CutAtJoin(job: string, peer: string)
    requires job == "J" || EndsInMarkerHead(job, 'J')
    ensures |job| + 1 <= |CursorTail(job, peer)| && CursorTail(job, peer)[|job| + 1..] == "_J_P_" + peer
  {
    var t, a := CursorTail(job, peer), |job|;
    TailLayout(job, peer);
    assert t[a + 1] == '_' && t[a + 2] == 'J' by {
      if a >= 2 {
        assert t[a + 1] == job[a - 2];
      }
      assert t[a + 2] == job[a - 1];
    }
    assert t[a + 6..] == peer;
    assert t[a + 1..] == [t[a + 1], t[a + 2], t[a + 3], t[a + 4], t[a + 5]] + t[a + 6..];
  }

  /** The rest read as a tail names job `P`. */
  lemma JoinIsATailIff(peer: string, job': string, peer': string)
    requires ValidIdentifier(peer) && ValidIdentifier(job')
    ensures "_J_P_" + peer == CursorTail(job', peer') <==> job' == "P" && peer == "P_" + peer'
  {
    var s := "P_" + peer;
    TailBody(job', peer');
    assert "_J_P_" + ("P_" + peer') == CursorTail("P", peer');
    if "_J_P_" + peer == CursorTail(job', peer') {
      assert ("_J_P_" + peer)[3..] == s == job' + "_P_" + peer';
      var k := |job'|;
      assert s[k] == '_' && s[k + 1] == 'P' && s[k + 2] == '_';
      if k >= 2 {
        assert forall i | 2 <= i < |s| :: s[i] == peer[i - 2];
        assert MarkerAt(peer, k - 2, 'P');
      }
      assert k == 1;
      assert job' == s[..1] == "P";
      assert peer == s[2..] && s[2..] == ("P_P_" + peer')[2..] == "P_" + peer';
    }
  }

  lemma NoMarkerAfterCut(job: string)
    requires ValidIdentifier(job) && |job| >= 2
    ensures !HasMarker(job[2..], 'P')
  {
    assert forall k | 0 <= k < |job| - 2 && MarkerAt(job[2..], k, 'P') :: MarkerAt(job, k + 2, 'P');
  }

  /** Exactly the other tails that end a given one. */
  lemma InnerTailIff(job: string, peer: string, job': string, peer': string)
    requires ValidIdentifier(job) && ValidIdentifier(peer) && ValidIdentifier(job') && ValidIdentifier(peer')
    ensures EndsWith(CursorTail(job, peer), CursorTail(job', peer')) <==> Claimed(job, peer, job', peer')
  {
    var t, t' := CursorTail(job, peer), CursorTail(job', peer');
    TailsAreEqualIff(job, peer, job', peer');
    if StartsWithMarkerTail(job, 'J') {
      CutAfterMarker(job, peer);
      NoMarkerAfterCut(job);
      TailsAreEqualIff(job[2..], peer, job', peer');
    }
    if job == "J" || EndsInMarkerHead(job, 'J') {
      CutAtJoin(job, peer);
      JoinIsATailIff(peer, job', peer');
    }
    if EndsWith(t, t') {
      var d: nat := |t| - |t'|;
      if d == 0 {
        assert t[0..] == t;
      } else {
        InnerTailPlaces(job, peer, job', peer', d);
      }
    }
    if Claimed(job, peer, job', peer') {
      assert t == t' || t[2..] == t' || (|job| + 1 <= |t| && t[|job| + 1..] == t');
    }
  }

  lemma LeafEndsInTail(guid: nat, job: string, peer: string)
    ensures IsCursorLeaf(CursorLeaf(guid, job, peer), job, peer)
  {
    var leaf, t := CursorLeaf(guid, job, peer), CursorTail(job, peer);
    assert leaf == (CURSOR_PREFIX + Hex(guid)) + t;
    assert CURSOR_PREFIX == leaf[..|CURSOR_PREFIX|];
  }

  /** The digit a character stands for. */
  function DigitOf(c: char): int {
    if '0' <= c <= '9' then c as int - '0' as int else if 'a' <= c <= 'f' then c as int - 'a' as int + 10 else -1
  }

  function ReadHex(s: string): int {
    if s == [] then 0 else 16 * ReadHex(s[..|s| - 1]) + DigitOf(s[|s| - 1])
  }

  lemma DigitReadsBack(d: nat)
    requires d < 16
    ensures DigitOf(HexDigit(d)) == d
  {
  }

  lemma ReadMore(s: string, c: char)
    ensures ReadHex(s + [c]) == 16 * ReadHex(s) + DigitOf(c)
  {
    assert (s + [c])[..|s|] == s;
  }

  /** The hexadecimal form reads back. */
  lemma {:induction false} HexReadsBack(n: nat)
    ensures ReadHex(Hex(n)) == n
  {
    DigitReadsBack(n % 16);
    if n < 16 {
      ReadMore([], HexDigit(n));
      assert [] + [HexDigit(n)] == Hex(n);
    } else {
      HexReadsBack(n / 16);
      ReadMore(Hex(n / 16), HexDigit(n % 16));
    }
  }

  /** A cursor of one pair is named after its GUID alone: a new cursor never has
      the name of a stale one. */
  lemma CursorNamesItsGuid(guid: nat, guid': nat, job: string, peer: string)
    ensures CursorLeaf(guid, job, peer) == CursorLeaf(guid', job, peer) <==> guid == guid'
  {
    var leaf, leaf', n := CursorLeaf(guid, job, peer), CursorLeaf(guid', job, peer), |CURSOR_PREFIX|;
    var tail := CursorTail(job, peer);
    HexReadsBack(guid);
    HexReadsBack(guid');
    assert leaf[n..|leaf| - |tail|] == Hex(guid) && leaf'[n..|leaf'| - |tail|] == Hex(guid');
  }

  /** The last-received tag names the job, and is no step tag. */
  lemma LastTagNamesTheJob(job: string, job': string, peer: string)
    ensures LastHoldTag(job) == LastHoldTag(job') <==> job == job'
    ensures LastHoldTag(job) != StepHoldTag(job', peer)
  {
    var n := |"arctern_last_J_"|;
    assert LastHoldTag(job)[n..] == job && LastHoldTag(job')[n..] == job';
    assert LastHoldTag(job)[8] == 'l' && StepHoldTag(job', peer)[8] == 's';
  }

  lemma {:induction false} HexIsLowerCase(n: nat)
    ensures 'J' !in Hex(n)
  {
    if n >= 16 {
      HexIsLowerCase(n / 16);
    }
  }

  /** A suffix whose second character is a `J` starts after any text without one. */
  lemma SuffixStays(head: string, t: string, t': string)
    requires 'J' !in head && |t| > 0 && t[0] != 'J' && |t'| > 1 && t'[1] == 'J'
    requires EndsWith(head + t, t')
    ensures EndsWith(t, t')
  {
    var start := |head + t| - |t'|;
    assert (head + t)[start + 1] == 'J';
    assert (head + t)[start..] == t[start - |head|..];
  }

  /** No claim reaches into the GUID: what precedes the tail holds no `J`. */
  lemma ClaimStaysInTail(guid: nat, job: string, peer: string, job': string, peer': string)
    requires EndsWith(CursorLeaf(guid, job, peer), CursorTail(job', peer'))
    ensures EndsWith(CursorTail(job, peer), CursorTail(job', peer'))
  {
    HexIsLowerCase(guid);
    SuffixStays(CURSOR_PREFIX + Hex(guid), CursorTail(job, peer), CursorTail(job', peer'));
  }

  /** Main result: over all identifiers the config accepts, a pair claims the
      cursors of another exactly as `Claimed` says. */
  lemma CursorClaimedIff(guid: nat, job: string, peer: string, job': string, peer': string)
    requires ValidIdentifier(job) && ValidIdentifier(peer) && ValidIdentifier(job') && ValidIdentifier(peer')
    ensures IsCursorLeaf(CursorLeaf(guid, job, peer), job', peer') <==> Claimed(job, peer, job', peer')
  {
    var leaf, t, t' := CursorLeaf(guid, job, peer), CursorTail(job, peer), CursorTail(job', peer');
    LeafEndsInTail(guid, job, peer);
    InnerTailIff(job, peer, job', peer');
    if EndsWith(leaf, t') {
      ClaimStaysInTail(guid, job, peer, job', peer');
    }
    if EndsWith(t, t') {
      assert leaf[|leaf| - |t'|..] == t[|t| - |t'|..];
    }
  }

  /** Likewise for step tags: two pairs share a tag exactly when their tails are
      the same. */
  lemma StepTagsAreEqualIff(job: string, peer: string, job': string, peer': string)
    requires ValidIdentifier(job) && ValidIdentifier(peer) && ValidIdentifier(job') && ValidIdentifier(peer')
    ensures StepHoldTag(job, peer) == StepHoldTag(job', peer') <==> SameTail(job, peer, job', peer')
  {
    var head := "arctern_step";
    assert StepHoldTag(job, peer) == head + CursorTail(job, peer);
    assert StepHoldTag(job', peer') == head + CursorTail(job', peer');
    TailsAreEqualIff(job, peer, job', peer');
    if StepHoldTag(job, peer) == StepHoldTag(job', peer') {
      assert CursorTail(job, peer) == StepHoldTag(job, peer)[|head|..] == CursorTail(job', peer');
    }
  }

  /** So with no job starting with `J_` and no peer starting with `P_`, both name
      their pair. */
  lemma CursorOwnershipIsExact(guid: nat, job: string, peer: string, job': string, peer': string)
    requires ValidIdentifier(job) && ValidIdentifier(peer) && ValidIdentifier(job') && ValidIdentifier(peer')
    requires !StartsWithMarkerTail(job, 'J') && !StartsWithMarkerTail(job', 'J')
    requires !StartsWithMarkerTail(peer, 'P') && !StartsWithMarkerTail(peer', 'P')
    ensures IsCursorLeaf(CursorLeaf(guid, job, peer), job', peer') <==> (job == job' && peer == peer')
    ensures StepHoldTag(job, peer) == StepHoldTag(job', peer') <==> (job == job' && peer == peer')
  {
    CursorClaimedIff(guid, job, peer, job', peer');
    StepTagsAreEqualIff(job, peer, job', peer');
  }

  /** Every clause of `Claimed` has accepted names. The cursors of job `J_<job>`
      are also claimed, and swept, by job `<job>`. */
  lemma JobNamedAfterMarkerIsClaimed(guid: nat, job: string, peer: string)
    requires ValidIdentifier(job) && |job| <= 62
    requires !StartsWithMarkerTail(job, 'J') && !StartsWithMarkerTail(job, 'P')
    ensures ValidIdentifier("J_" + job)
    ensures IsCursorLeaf(CursorLeaf(guid, "J_" + job, peer), job, peer)
  {
    var long := "J_" + job;
    forall k, m | (m == 'J' || m == 'P') && MarkerAt(long, k, m)
      ensures false
    {
      if k >= 2 {
        assert MarkerAt(job, k - 2, m);
      }
    }
    assert long[0] == 'J' && forall c | c in long :: c == 'J' || c == '_' || c in job;
    var leaf := CursorLeaf(guid, long, peer);
    LeafEndsInTail(guid, long, peer);
    assert leaf == (CURSOR_PREFIX + Hex(guid) + "_J") + CursorTail(job, peer);
  }

  /** Appending `_P` or `_J` to an accepted name keeps it accepted unless the join
      makes a marker. */
  lemma JobWithMarkerTailIsValid(job: string, end: char)
    requires ValidIdentifier(job) && |job| <= 62 && !EndsInMarkerHead(job, 'J') && !EndsInMarkerHead(job, 'P')
    requires end == 'J' || end == 'P'
    ensures ValidIdentifier(job + ['_', end])
  {
    var long := job + ['_', end];
    forall k, m | (m == 'J' || m == 'P') && MarkerAt(long, k, m)
      ensures false
    {
      if k + 3 <= |job| {
        assert MarkerAt(job, k, m);
      }
    }
    assert long[0] == job[0] && forall c | c in long :: c == end || c == '_' || c in job;
  }

  lemma PeerAfterMarkerIsValid(peer: string)
    requires ValidIdentifier(peer) && |peer| <= 62
    requires !StartsWithMarkerTail(peer, 'J') && !StartsWithMarkerTail(peer, 'P')
    ensures ValidIdentifier("P_" + peer)
  {
    var long := "P_" + peer;
    forall k, m | (m == 'J' || m == 'P') && MarkerAt(long, k, m)
      ensures false
    {
      if k >= 2 {
        assert MarkerAt(peer, k - 2, m);
      }
    }
    assert long[0] == 'P' && forall c | c in long :: c == 'P' || c == '_' || c in peer;
  }

  /** Peer `P_<peer>` under job `<job>` and peer `<peer>` under job `<job>_P` are
      different pairs that write the very same cursor. */
  lemma PeerNamedAfterMarkerCollides(guid: nat, job: string, peer: string)
    requires ValidIdentifier(job) && |job| <= 62 && !EndsInMarkerHead(job, 'J') && !EndsInMarkerHead(job, 'P')
    requires ValidIdentifier(peer) && |peer| <= 62
    requires !StartsWithMarkerTail(peer, 'J') && !StartsWithMarkerTail(peer, 'P')
    ensures ValidIdentifier("P_" + peer) && ValidIdentifier(job + "_P")
    ensures job != job + "_P" && peer != "P_" + peer
    ensures CursorLeaf(guid, job, "P_" + peer) == CursorLeaf(guid, job + "_P", peer)
  {
    JobWithMarkerTailIsValid(job, 'P');
    assert job + ['_', 'P'] == job + "_P";
    PeerAfterMarkerIsValid(peer);
    assert |job| < |job + "_P"| && |peer| < |"P_" + peer|;
    assert job + "_P_" + ("P_" + peer) == job + "_P" + "_P_" + peer;
    assert CursorTail(job, "P_" + peer) == CursorTail(job + "_P", peer);
  }

  /** Job `P` claims the cursors of job `<job>_J` for its peer, when the other
      job's peer is that one behind a `P_`. */
  lemma JobNamedPClaims(guid: nat, job: string, peer: string)
    requires ValidIdentifier(job) && |job| <= 62 && !EndsInMarkerHead(job, 'J') && !EndsInMarkerHead(job, 'P')
    requires ValidIdentifier(peer) && |peer| <= 62
    requires !StartsWithMarkerTail(peer, 'J') && !StartsWithMarkerTail(peer, 'P')
    ensures ValidIdentifier(job + "_J") && ValidIdentifier("P_" + peer) && ValidIdentifier("P")
    ensures !SameTail(job + "_J", "P_" + peer, "P", peer)
    ensures IsCursorLeaf(CursorLeaf(guid, job + "_J", "P_" + peer), "P", peer)
  {
    JobWithMarkerTailIsValid(job, 'J');
    assert job + ['_', 'J'] == job + "_J";
    PeerAfterMarkerIsValid(peer);
    assert EndsInMarkerHead(job + "_J", 'J');
    CursorClaimedIff(guid, job + "_J", "P_" + peer, "P", peer);
  }
}
