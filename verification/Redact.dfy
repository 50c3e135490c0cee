/** Scrubbing a key from text (types.go, redactSecret). A byte is one `char`. */
module Redact {
  const REDACTED := "REDACTED"
  const LEAST_KEY_BYTES := 4
  const LONG_KEY_BYTES := 8

  const PLACEHOLDERS: set<string> := {
    "none", "empty", "null", "nil", "ollama", "dummy", "test", "unused", "nokey", "no-key", "apikey", "api-key",
    "api_key", "token", "local", "vllm", "lmstudio", "sk-none", "sk-xxx", "sk-1234", "changeme"
  }

  predicate IsTokenByte(c: char) {
    c == '-' || c == '_' || '0' <= c <= '9' || 'a' <= c <= 'z' || 'A' <= c <= 'Z'
  }

  function Lower(s: string): string {
    seq(|s|, i requires 0 <= i < |s| => if 'A' <= s[i] <= 'Z' then s[i] - 'A' + 'a' else s[i])
  }

  predicate IsPlaceholder(key: string) {
    Lower(key) in PLACEHOLDERS
  }

  predicate Occurs(msg: string, key: string, i: nat) {
    i + |key| <= |msg| && msg[i..i + |key|] == key
  }

  /** It occurs there and is not part of a longer token. */
  predicate OccursWhole(msg: string, key: string, i: nat) {
    && Occurs(msg, key, i)
    && (i == 0 || !IsTokenByte(msg[i - 1]))
    && (i + |key| == |msg| || !IsTokenByte(msg[i + |key|]))
  }

  /** Short keys are scrubbed as whole tokens, long ones wherever they occur. */
  predicate IsHit(msg: string, key: string, i: nat) {
    if |key| < LONG_KEY_BYTES then OccursWhole(msg, key, i) else Occurs(msg, key, i)
  }

  predicate IsScrubbed(key: string) {
    |key| >= LONG_KEY_BYTES || (|key| >= LEAST_KEY_BYTES && !IsPlaceholder(key))
  }

  /** The first hit at `from` or later, or the end of the message. */
  function NextHit(msg: string, key: string, from: nat): (i: nat)
    requires from <= |msg|
    ensures from <= i <= |msg| && forall k: nat | from <= k < i :: !IsHit(msg, key, k)
    ensures i < |msg| ==> IsHit(msg, key, i)
    decreases |msg| - from
  {
    if from == |msg| || IsHit(msg, key, from) then from else NextHit(msg, key, from + 1)
  }

  /** The text between the hits, scanning left to right and never inside a hit. */
  function Pieces(msg: string, key: string, from: nat): (pieces: seq<string>)
    requires from <= |msg| && key != ""
    ensures pieces != []
    decreases |msg| - from
  {
    var i := NextHit(msg, key, from);
    if i == |msg| then [msg[from..]] else [msg[from..i]] + Pieces(msg, key, i + |key|)
  }

  function Join(pieces: seq<string>, separator: string): string
    requires pieces != []
  {
    if |pieces| == 1 then pieces[0] else pieces[0] + separator + Join(pieces[1..], separator)
  }

  function Redacted(msg: string, key: string): string {
    if IsScrubbed(key) then Join(Pieces(msg, key, 0), REDACTED) else msg
  }

  // ---------------------------------------------------------------------------------------------
  // The loop
  // ---------------------------------------------------------------------------------------------

  /** strings.Index on the rest of the message; the message's length when there is none. */
  method IndexFrom(msg: string, key: string, from: nat) returns (i: nat)
    requires from <= |msg| && key != ""
    ensures from <= i <= |msg| && forall k: nat | from <= k < i :: !Occurs(msg, key, k)
    ensures i < |msg| ==> Occurs(msg, key, i)
  {
    i := from;
    while i < |msg| && !(i + |key| <= |msg| && msg[i..i + |key|] == key)
      invariant from <= i <= |msg| && forall k: nat | from <= k < i :: !Occurs(msg, key, k)
    {
      i := i + 1;
    }
  }

  ghost predicate NoHits(msg: string, key: string, from: nat, to: nat) {
    forall k: nat | from <= k < to :: !IsHit(msg, key, k)
  }

  lemma {:induction false} SkipMisses(msg: string, key: string, from: nat, to: nat)
    requires from <= to <= |msg| && NoHits(msg, key, from, to)
    ensures NextHit(msg, key, from) == NextHit(msg, key, to)
    decreases |msg| - from
  {
    if from < to {
      SkipMisses(msg, key, from + 1, to);
    }
  }

  lemma MoreMisses(msg: string, key: string, from: nat, to: nat, i: nat)
    requires from <= to <= i && NoHits(msg, key, from, to) && forall k: nat | to <= k < i :: !Occurs(msg, key, k)
    ensures NoHits(msg, key, from, i)
  {
  }

  function Rest(msg: string, key: string, from: nat): string
    requires from <= |msg| && key != ""
  {
    Join(Pieces(msg, key, from), REDACTED)
  }

  lemma RestAtEnd(msg: string, key: string, from: nat)
    requires from <= |msg| && key != "" && NextHit(msg, key, from) == |msg|
    ensures Rest(msg, key, from) == msg[from..]
  {
  }

  lemma RestAfterHit(msg: string, key: string, from: nat, i: nat)
    requires from <= |msg| && key != "" && i == NextHit(msg, key, from) && i < |msg|
    ensures Rest(msg, key, from) == msg[from..i] + REDACTED + Rest(msg, key, i + |key|)
  {
    var rest := Pieces(msg, key, i + |key|);
    assert Pieces(msg, key, from)[1..] == rest;
  }

  lemma CopyToHit(b: string, msg: string, key: string, from: nat, i: nat)
    requires from <= |msg| && key != "" && i == NextHit(msg, key, from) && i < |msg|
    ensures b + Rest(msg, key, from) == (b + msg[from..i] + REDACTED) + Rest(msg, key, i + |key|)
  {
    RestAfterHit(msg, key, from, i);
  }

  method RedactWhole(msg: string, key: string) returns (out: string)
    requires LEAST_KEY_BYTES <= |key| < LONG_KEY_BYTES
    ensures out == Rest(msg, key, 0)
  {
    var b := "";
    var pos: nat, from: nat := 0, 0;
    while true
      invariant pos <= from <= |msg| && NoHits(msg, key, pos, from)
      invariant b + Rest(msg, key, pos) == Rest(msg, key, 0) && (pos == 0 ==> b == "")
      decreases |msg| - from
    {
      var i := IndexFrom(msg, key, from);
      MoreMisses(msg, key, pos, from, i);
      SkipMisses(msg, key, pos, i);
      if i == |msg| {
        break;
      }
      var end := i + |key|;
      assert IsHit(msg, key, i) <==> (i == 0 || !IsTokenByte(msg[i - 1])) && (end == |msg| || !IsTokenByte(msg[end]));
      if (i == 0 || !IsTokenByte(msg[i - 1])) && (end == |msg| || !IsTokenByte(msg[end])) {
        assert NextHit(msg, key, pos) == i;
        CopyToHit(b, msg, key, pos, i);
        b := b + msg[pos..i] + REDACTED;
        pos, from := end, end;
        continue;
      }
      from := i + 1;
    }
    RestAtEnd(msg, key, pos);
    if pos == 0 {
      assert msg[0..] == msg;
      return msg;
    }
    out := b + msg[pos..];
  }

  /** strings.ReplaceAll: leftmost occurrences first, none overlapping. */
  method ReplaceAll(msg: string, key: string) returns (out: string)
    requires |key| >= LONG_KEY_BYTES
    ensures out == Rest(msg, key, 0)
  {
    out := "";
    var pos: nat := 0;
    while true
      invariant pos <= |msg| && out + Rest(msg, key, pos) == Rest(msg, key, 0)
      decreases |msg| - pos
    {
      var i := IndexFrom(msg, key, pos);
      MoreMisses(msg, key, pos, pos, i);
      SkipMisses(msg, key, pos, i);
      if i == |msg| {
        break;
      }
      CopyToHit(out, msg, key, pos, i);
      out := out + msg[pos..i] + REDACTED;
      pos := i + |key|;
    }
    RestAtEnd(msg, key, pos);
    out := out + msg[pos..];
  }

  method RedactSecret(msg: string, key: string) returns (out: string)
    ensures out == Redacted(msg, key)
  {
    if msg == "" || |key| < LEAST_KEY_BYTES {
      return msg;
    }
    if |key| >= LONG_KEY_BYTES {
      out := ReplaceAll(msg, key);
      return;
    }
    if IsPlaceholder(key) {
      return msg;
    }
    out := RedactWhole(msg, key);
  }

  // ---------------------------------------------------------------------------------------------
  // Text outside the redacted spans
  // ---------------------------------------------------------------------------------------------

  lemma {:induction false} PiecesJoinBack(msg: string, key: string, from: nat)
    requires from <= |msg| && key != ""
    ensures Join(Pieces(msg, key, from), key) == msg[from..]
    decreases |msg| - from
  {
    var i := NextHit(msg, key, from);
    if i < |msg| {
      PiecesJoinBack(msg, key, i + |key|);
      assert Pieces(msg, key, from)[1..] == Pieces(msg, key, i + |key|);
      CutAtHit(msg, key, from, i);
    }
  }

  lemma CutAtHit(msg: string, key: string, from: nat, i: nat)
    requires from <= i && Occurs(msg, key, i)
    ensures msg[from..i] + key + msg[i + |key|..] == msg[from..]
  {
    assert msg[from..] == msg[from..i] + msg[i..i + |key|] + msg[i + |key|..];
  }

  /**
   The output is the message with some occurrences of the key replaced: the same pieces, in the same
   order, joined by the key in the one and by the mark in the other.
   */
  lemma TextIsPreserved(msg: string, key: string)
    requires IsScrubbed(key)
    ensures Join(Pieces(msg, key, 0), key) == msg && Join(Pieces(msg, key, 0), REDACTED) == Redacted(msg, key)
  {
    PiecesJoinBack(msg, key, 0);
    assert msg[0..] == msg;
  }

  lemma NoHitNoChange(msg: string, key: string)
    requires forall i: nat | i < |msg| :: !IsHit(msg, key, i)
    ensures Redacted(msg, key) == msg
  {
    assert msg[0..] == msg;
  }

  // ---------------------------------------------------------------------------------------------
  // Short keys do not survive
  // ---------------------------------------------------------------------------------------------

  /** A whole-token occurrence in text that follows a token byte, or nothing. */
  predicate OccursAfter(isMidToken: bool, text: string, key: string, p: nat) {
    OccursWhole(text, key, p) && (p == 0 ==> !isMidToken)
  }

  lemma OccursInPart(head: string, part: string, tail: string, key: string, p: nat)
    requires p + |key| <= |part|
    ensures Occurs(head + part + tail, key, |head| + p) <==> Occurs(part, key, p)
  {
    assert (head + part + tail)[|head| + p..|head| + p + |key|] == part[p..p + |key|];
  }

  lemma MarkIsToken(head: string, tail: string, j: nat)
    requires j < |REDACTED|
    ensures IsTokenByte((head + REDACTED + tail)[|head| + j])
  {
    assert (head + REDACTED + tail)[|head| + j] == REDACTED[j];
  }

  /** No whole token of a short key touches the mark. */
  lemma MarkKeepsApart(head: string, tail: string, key: string, p: nat)
    requires 0 < |key| < LONG_KEY_BYTES
    ensures OccursWhole(head + REDACTED + tail, key, p) ==> p + |key| < |head| || p > |head| + |REDACTED|
  {
    if |head| <= p + |key| < |head| + |REDACTED| {
      MarkIsToken(head, tail, p + |key| - |head|);
    }
    if |head| < p <= |head| + |REDACTED| {
      MarkIsToken(head, tail, p - 1 - |head|);
    }
  }

  /** What occurs in a gap of the message, not touching its right end, occurs in the message. */
  lemma OccursInGap(msg: string, from: nat, i: nat, tail: string, key: string, p: nat)
    requires from <= i <= |msg| && p + |key| < i - from
    ensures OccursAfter(from > 0, msg[from..i] + REDACTED + tail, key, p) ==> OccursWhole(msg, key, from + p)
  {
    var gap := msg[from..i];
    var text := gap + REDACTED + tail;
    assert msg == msg[..from] + gap + msg[i..];
    OccursInPart(msg[..from], gap, msg[i..], key, p);
    assert text == "" + gap + (REDACTED + tail);
    OccursInPart("", gap, REDACTED + tail, key, p);
    assert text[p + |key|] == gap[p + |key|] == msg[from + p + |key|];
    assert p > 0 ==> text[p - 1] == gap[p - 1] == msg[from + p - 1];
  }

  lemma OccursInTail(head: string, tail: string, key: string, p: nat)
    requires p > |head| + |REDACTED|
    ensures OccursWhole(head + REDACTED + tail, key, p) ==> OccursWhole(tail, key, p - |head| - |REDACTED|)
  {
    var text, start := head + REDACTED + tail, |head| + |REDACTED|;
    if p + |key| <= |text| {
      assert text == (head + REDACTED) + tail + "";
      OccursInPart(head + REDACTED, tail, "", key, p - start);
      assert text[p - 1] == tail[p - 1 - start];
      assert p + |key| < |text| ==> text[p + |key|] == tail[p + |key| - start];
    }
  }

  lemma OccursInRest(msg: string, key: string, from: nat, p: nat)
    requires from <= |msg|
    ensures OccursAfter(from > 0, msg[from..], key, p) ==> OccursWhole(msg, key, from + p)
  {
    if from + p + |key| <= |msg| {
      assert msg == msg[..from] + msg[from..] + "";
      OccursInPart(msg[..from], msg[from..], "", key, p);
    }
  }

  lemma EndHasNone(msg: string, key: string, from: nat, p: nat)
    requires from <= |msg| && 0 < |key| < LONG_KEY_BYTES && NextHit(msg, key, from) == |msg|
    ensures !OccursAfter(from > 0, msg[from..], key, p)
  {
    OccursInRest(msg, key, from, p);
    assert from + p < |msg| ==> !IsHit(msg, key, from + p);
  }

  lemma GapHasNone(msg: string, key: string, from: nat, i: nat, tail: string, p: nat)
    requires from <= i <= |msg| && |key| < LONG_KEY_BYTES && i == NextHit(msg, key, from) && p + |key| < i - from
    ensures !OccursAfter(from > 0, msg[from..i] + REDACTED + tail, key, p)
  {
    OccursInGap(msg, from, i, tail, key, p);
    assert !IsHit(msg, key, from + p);
  }

  lemma MarkedHasNone(head: string, tail: string, key: string, p: nat)
    requires 0 < |key| < LONG_KEY_BYTES && p + |key| >= |head|
    requires p > |head| + |REDACTED| ==> !OccursAfter(true, tail, key, p - |head| - |REDACTED|)
    ensures !OccursWhole(head + REDACTED + tail, key, p)
  {
    MarkKeepsApart(head, tail, key, p);
    if p > |head| + |REDACTED| {
      OccursInTail(head, tail, key, p);
    }
  }

  lemma HitHasNone(msg: string, key: string, from: nat, i: nat, tail: string, p: nat)
    requires from <= i <= |msg| && 0 < |key| < LONG_KEY_BYTES && i == NextHit(msg, key, from)
    requires p > i - from + |REDACTED| ==> !OccursAfter(true, tail, key, p - (i - from) - |REDACTED|)
    ensures !OccursAfter(from > 0, msg[from..i] + REDACTED + tail, key, p)
  {
    if p + |key| < i - from {
      GapHasNone(msg, key, from, i, tail, p);
    } else {
      MarkedHasNone(msg[from..i], tail, key, p);
    }
  }

  ghost predicate HasNone(isMidToken: bool, text: string, key: string) {
    forall p: nat :: !OccursAfter(isMidToken, text, key, p)
  }

  lemma EndIsClean(msg: string, key: string, from: nat)
    requires from <= |msg| && 0 < |key| < LONG_KEY_BYTES && NextHit(msg, key, from) == |msg|
    ensures HasNone(from > 0, msg[from..], key)
  {
    var isMidToken, text := from > 0, msg[from..];
    forall p: nat ensures !OccursAfter(isMidToken, text, key, p) {
      EndHasNone(msg, key, from, p);
    }
  }

  lemma HitIsClean(msg: string, key: string, from: nat, i: nat, tail: string)
    requires from <= i <= |msg| && 0 < |key| < LONG_KEY_BYTES && i == NextHit(msg, key, from) && HasNone(true, tail, key)
    ensures HasNone(from > 0, msg[from..i] + REDACTED + tail, key)
  {
    var isMidToken, text := from > 0, msg[from..i] + REDACTED + tail;
    forall p: nat ensures !OccursAfter(isMidToken, text, key, p) {
      HitHasNone(msg, key, from, i, tail, p);
    }
  }

  lemma {:induction false} RestIsClean(msg: string, key: string, from: nat)
    requires from <= |msg| && LEAST_KEY_BYTES <= |key| < LONG_KEY_BYTES
    ensures HasNone(from > 0, Rest(msg, key, from), key)
    decreases |msg| - from
  {
    var i := NextHit(msg, key, from);
    if i == |msg| {
      RestAtEnd(msg, key, from);
      EndIsClean(msg, key, from);
    } else {
      RestIsClean(msg, key, i + |key|);
      RestAfterHit(msg, key, from, i);
      HitIsClean(msg, key, from, i, Rest(msg, key, i + |key|));
    }
  }

  /**
   Whatever the message, a key of four to seven bytes that is no placeholder does not occur as a
   whole token in the redacted text: the mark cannot complete one, being eight token bytes.
   */
  lemma ShortKeyIsGone(msg: string, key: string, p: nat)
    requires LEAST_KEY_BYTES <= |key| < LONG_KEY_BYTES && !IsPlaceholder(key)
    ensures !OccursWhole(Redacted(msg, key), key, p)
  {
    RestIsClean(msg, key, 0);
    assert !OccursAfter(false, Rest(msg, key, 0), key, p);
  }

  /** Redacting again changes nothing. */
  lemma ShortKeyIdempotent(msg: string, key: string)
    requires |key| < LONG_KEY_BYTES
    ensures Redacted(Redacted(msg, key), key) == Redacted(msg, key)
  {
    if IsScrubbed(key) {
      var out := Redacted(msg, key);
      forall p: nat | p < |out| ensures !IsHit(out, key, p) {
        ShortKeyIsGone(msg, key, p);
      }
      NoHitNoChange(out, key);
    }
  }

  /** A message is left as it is exactly when no whole token in it is the key. */
  lemma ChangedOnlyByHits(msg: string, key: string)
    requires LEAST_KEY_BYTES <= |key| < LONG_KEY_BYTES && !IsPlaceholder(key)
    ensures Redacted(msg, key) == msg <==> forall i: nat | i < |msg| :: !OccursWhole(msg, key, i)
  {
    if Redacted(msg, key) == msg {
      forall i: nat | i < |msg| ensures !OccursWhole(msg, key, i) {
        ShortKeyIsGone(msg, key, i);
      }
    } else if forall i: nat | i < |msg| :: !IsHit(msg, key, i) {
      NoHitNoChange(msg, key);
    }
  }

  lemma PieceHasNone(msg: string, key: string, from: nat, i: nat, p: nat)
    requires from <= i <= |msg| && |key| >= LONG_KEY_BYTES && forall k: nat | from <= k < i :: !IsHit(msg, key, k)
    ensures !Occurs(msg[from..i], key, p)
  {
    if p + |key| <= i - from {
      assert msg == msg[..from] + msg[from..i] + msg[i..];
      OccursInPart(msg[..from], msg[from..i], msg[i..], key, p);
      assert !IsHit(msg, key, from + p);
    }
  }

  /** No piece of the message left in place holds a long key. */
  lemma {:induction false} LongKeyIsCut(msg: string, key: string, from: nat, k: nat, p: nat)
    requires from <= |msg| && |key| >= LONG_KEY_BYTES && k < |Pieces(msg, key, from)|
    ensures !Occurs(Pieces(msg, key, from)[k], key, p)
    decreases |msg| - from
  {
    var i := NextHit(msg, key, from);
    if k == 0 {
      PieceHasNone(msg, key, from, i, p);
      assert Pieces(msg, key, from)[0] == msg[from..i];
    } else {
      LongKeyIsCut(msg, key, i + |key|, k - 1, p);
    }
  }

  // ---------------------------------------------------------------------------------------------
  // When a long key survives
  // ---------------------------------------------------------------------------------------------

  /** The key starts with the last `m` letters of the mark. */
  predicate BeginsInMark(key: string, m: nat) {
    0 < m <= |REDACTED| && m <= |key| && key[..m] == REDACTED[|REDACTED| - m..]
  }

  /**
   After `i` bytes the key goes on like the mark, and those bytes can stand before a key without making
   an earlier occurrence.
   */
  predicate RunsIntoMark(key: string, i: nat) {
    && 0 < i < |key| && (key[i..] <= REDACTED || REDACTED <= key[i..])
    && forall j: nat | j < i :: !Occurs(key[..i] + key, key, j)
  }

  /** The mark can complete the key. */
  predicate Completes(key: string) {
    (exists m: nat | m <= |REDACTED| :: BeginsInMark(key, m)) || (exists i: nat | i < |key| :: RunsIntoMark(key, i))
  }

  lemma BeginsAtMark(head: string, tail: string, key: string, p: nat)
    requires |key| >= LONG_KEY_BYTES && |head| <= p < |head| + |REDACTED| && Occurs(head + REDACTED + tail, key, p)
    ensures BeginsInMark(key, |head| + |REDACTED| - p)
  {
    var text, m := head + REDACTED + tail, |head| + |REDACTED| - p;
    assert text[p..p + |key|][..m] == text[p..p + m] == REDACTED[|REDACTED| - m..];
  }

  /** Bytes before the mark and from it on. */
  lemma SplitAtMark(head: string, tail: string, key: string, p: nat)
    requires p < |head| < p + |key| && Occurs(head + REDACTED + tail, key, p)
    ensures key[..|head| - p] == head[p..]
    ensures key[|head| - p..] <= REDACTED || REDACTED <= key[|head| - p..]
  {
    var text, i := head + REDACTED + tail, |head| - p;
    assert text[p..p + |key|][..i] == text[p..|head|] == head[p..];
    assert text[|head|..] == REDACTED + tail;
    assert key[i..] == text[p..p + |key|][i..] == text[|head|..p + |key|] == (REDACTED + tail)[..|key| - i];
  }

  lemma NoneBeforeHit(msg: string, key: string, start: nat, i: nat, j: nat)
    requires start + j < i && Occurs(msg, key, i) && !Occurs(msg, key, start + j)
    ensures !Occurs(msg[start..i] + key, key, j)
  {
    var near := msg[start..i] + key;
    assert msg == msg[..start] + near + msg[i + |key|..];
    if j + |key| <= |near| {
      OccursInPart(msg[..start], near, msg[i + |key|..], key, j);
    }
  }

  lemma RunsBeforeHit(msg: string, key: string, from: nat, start: nat, i: nat)
    requires from <= start < i < |msg| && |key| >= LONG_KEY_BYTES && i == NextHit(msg, key, from) && i - start < |key|
    requires var n := i - start; key[..n] == msg[start..i] && (key[n..] <= REDACTED || REDACTED <= key[n..])
    ensures RunsIntoMark(key, i - start)
  {
    var n := i - start;
    forall j: nat | j < n ensures !Occurs(key[..n] + key, key, j) {
      assert !IsHit(msg, key, start + j);
      NoneBeforeHit(msg, key, start, i, j);
    }
  }

  lemma GapEnd(msg: string, from: nat, i: nat, p: nat)
    requires from + p <= i <= |msg|
    ensures msg[from..i][p..] == msg[from + p..i]
  {
  }

  lemma RunsFromGap(msg: string, key: string, from: nat, i: nat, gap: string, tail: string, p: nat)
    requires from <= i < |msg| && |key| >= LONG_KEY_BYTES && i == NextHit(msg, key, from) && gap == msg[from..i]
    requires p < |gap| < p + |key| && Occurs(gap + REDACTED + tail, key, p)
    ensures RunsIntoMark(key, |gap| - p)
  {
    SplitAtMark(gap, tail, key, p);
    GapEnd(msg, from, i, p);
    RunsBeforeHit(msg, key, from, from + p, i);
  }

  lemma LongTailHasNone(head: string, tail: string, key: string, p: nat)
    requires p >= |head| + |REDACTED| && forall q: nat :: !Occurs(tail, key, q)
    ensures !Occurs(head + REDACTED + tail, key, p)
  {
    var start := |head| + |REDACTED|;
    if p + |key| <= start + |tail| {
      assert head + REDACTED + tail == (head + REDACTED) + tail + "";
      OccursInPart(head + REDACTED, tail, "", key, p - start);
    }
  }

  lemma LongGapHasNone(msg: string, key: string, from: nat, i: nat, tail: string, p: nat)
    requires from <= i < |msg| && |key| >= LONG_KEY_BYTES && i == NextHit(msg, key, from) && p + |key| <= i - from
    ensures !Occurs(msg[from..i] + REDACTED + tail, key, p)
  {
    PieceHasNone(msg, key, from, i, p);
    assert msg[from..i] + REDACTED + tail == "" + msg[from..i] + (REDACTED + tail);
    OccursInPart("", msg[from..i], REDACTED + tail, key, p);
  }

  /** An occurrence lies before a mark, runs into it, begins in it or lies behind it. */
  lemma LongHitHasNone(msg: string, key: string, from: nat, i: nat, tail: string, p: nat)
    requires from <= i < |msg| && |key| >= LONG_KEY_BYTES && i == NextHit(msg, key, from)
    requires !Completes(key) && forall q: nat :: !Occurs(tail, key, q)
    ensures !Occurs(msg[from..i] + REDACTED + tail, key, p)
  {
    var gap := msg[from..i];
    if p + |key| <= |gap| {
      LongGapHasNone(msg, key, from, i, tail, p);
    } else if p >= |gap| + |REDACTED| {
      LongTailHasNone(gap, tail, key, p);
    } else if Occurs(gap + REDACTED + tail, key, p) {
      if p < |gap| {
        RunsFromGap(msg, key, from, i, gap, tail, p);
      } else {
        BeginsAtMark(gap, tail, key, p);
      }
    }
  }

  lemma {:induction false} LongRestIsClean(msg: string, key: string, from: nat, p: nat)
    requires from <= |msg| && |key| >= LONG_KEY_BYTES && !Completes(key)
    ensures !Occurs(Rest(msg, key, from), key, p)
    decreases |msg| - from
  {
    var i := NextHit(msg, key, from);
    if i == |msg| {
      RestAtEnd(msg, key, from);
      assert msg[from..i] == msg[from..];
      PieceHasNone(msg, key, from, i, p);
    } else {
      var tail := Rest(msg, key, i + |key|);
      forall q: nat ensures !Occurs(tail, key, q) {
        LongRestIsClean(msg, key, i + |key|, q);
      }
      RestAfterHit(msg, key, from, i);
      LongHitHasNone(msg, key, from, i, tail, p);
    }
  }

  /** A message with one hit, and too little behind it for another. */
  lemma OneHit(head: string, tail: string, key: string)
    requires |key| >= LONG_KEY_BYTES && |tail| < |key|
    requires forall j: nat | j < |head| :: !Occurs(head + key, key, j)
    ensures Redacted(head + key + tail, key) == head + REDACTED + tail
  {
    var msg, i, n := head + key + tail, |head|, |key|;
    forall j: nat | j < i ensures !IsHit(msg, key, j) {
      OccursInPart("", head + key, tail, key, j);
      assert "" + (head + key) + tail == msg;
    }
    OccursInPart(head, key, tail, key, 0);
    assert key[0..n] == key && Occurs(key, key, 0) && IsHit(msg, key, i);
    assert NextHit(msg, key, 0) == i;
    RestAfterHit(msg, key, 0, i);
    assert msg[0..i] == head && msg[i + n..] == tail;
    RestAtEnd(msg, key, i + n);
  }

  /** The witness for a key that begins in the mark. */
  lemma BeginningReturns(key: string, m: nat)
    requires |key| >= LONG_KEY_BYTES && BeginsInMark(key, m)
    ensures Occurs(Redacted(key + key[m..], key), key, |REDACTED| - m)
  {
    assert "" + key == key && "" + key + key[m..] == key + key[m..];
    OneHit("", key[m..], key);
    var out := "" + REDACTED + key[m..];
    assert out[|REDACTED| - m..] == REDACTED[|REDACTED| - m..] + key[m..] == key;
  }

  /** What is left of the key behind the mark. */
  function Behind(key: string, i: nat): string {
    if i + |REDACTED| < |key| then key[i + |REDACTED|..] else ""
  }

  lemma MarkRunsOn(key: string, i: nat)
    requires 0 < i < |key| && (key[i..] <= REDACTED || REDACTED <= key[i..])
    ensures key <= key[..i] + (REDACTED + Behind(key, i))
  {
    var rest := key[i..];
    assert key == key[..i] + rest;
    if i + |REDACTED| < |key| {
      assert rest == rest[..|REDACTED|] + rest[|REDACTED|..] && rest[|REDACTED|..] == Behind(key, i);
    }
    assert rest <= REDACTED + Behind(key, i);
  }

  /** The witness for a key that runs into the mark. */
  lemma RunningReturns(key: string, i: nat)
    requires |key| >= LONG_KEY_BYTES && RunsIntoMark(key, i)
    ensures Occurs(Redacted(key[..i] + key + Behind(key, i), key), key, 0)
  {
    OneHit(key[..i], Behind(key, i), key);
    MarkRunsOn(key, i);
    assert key[..i] + REDACTED + Behind(key, i) == key[..i] + (REDACTED + Behind(key, i));
  }

  /** A message whose redaction holds the key. */
  lemma LongKeyReturns(key: string) returns (msg: string, p: nat)
    requires |key| >= LONG_KEY_BYTES && Completes(key)
    ensures Occurs(Redacted(msg, key), key, p)
  {
    if m: nat :| m <= |REDACTED| && BeginsInMark(key, m) {
      BeginningReturns(key, m);
      msg, p := key + key[m..], |REDACTED| - m;
    } else {
      var i: nat :| i < |key| && RunsIntoMark(key, i);
      RunningReturns(key, i);
      msg, p := key[..i] + key + Behind(key, i), 0;
    }
  }

  /**
   Redaction keeps a key of eight bytes or more out of every message exactly when the mark cannot
   complete it, which depends on the key alone.
   */
  lemma LongKeyIsGoneIff(key: string)
    requires |key| >= LONG_KEY_BYTES
    ensures (forall msg, p: nat :: !Occurs(Redacted(msg, key), key, p)) <==> !Completes(key)
  {
    if Completes(key) {
      var msg, p := LongKeyReturns(key);
    } else {
      forall msg, p: nat ensures !Occurs(Redacted(msg, key), key, p) {
        LongRestIsClean(msg, key, 0, p);
      }
    }
  }

  /** An instance: the mark's last seven letters and any byte. */
  lemma LongKeyCanReturn(c: char)
    ensures var key := "EDACTED" + [c]; Completes(key) && Occurs(Redacted(key + [c], key), key, 1)
  {
    var key := "EDACTED" + [c];
    assert key[..7] == "EDACTED" == REDACTED[1..] && key[7..] == [c];
    assert BeginsInMark(key, 7);
    BeginningReturns(key, 7);
  }

  // ---------------------------------------------------------------------------------------------
  // Redacting a long key again
  // ---------------------------------------------------------------------------------------------

  lemma {:induction false} RestIsNoLonger(msg: string, key: string, from: nat)
    requires from <= |msg| && |key| >= LONG_KEY_BYTES
    ensures |Rest(msg, key, from)| <= |msg| - from
    decreases |msg| - from
  {
    var i := NextHit(msg, key, from);
    if i == |msg| {
      RestAtEnd(msg, key, from);
    } else {
      RestIsNoLonger(msg, key, i + |key|);
      RestAfterHit(msg, key, from, i);
    }
  }

  lemma MarkDiffers(msg: string, key: string, i: nat, rest: string)
    requires |key| >= LONG_KEY_BYTES && key != REDACTED && Occurs(msg, key, i) && |rest| <= |msg| - i - |key|
    ensures msg[..i] + REDACTED + rest != msg
  {
    var out := msg[..i] + REDACTED + rest;
    if |out| == |msg| {
      assert out[i..i + |REDACTED|] == REDACTED;
    }
  }

  /** A hit changes the message, unless the key is the mark. */
  lemma HitChanges(msg: string, key: string, p: nat)
    requires |key| >= LONG_KEY_BYTES && key != REDACTED && Occurs(msg, key, p)
    ensures Redacted(msg, key) != msg
  {
    assert IsHit(msg, key, p);
    var i := NextHit(msg, key, 0);
    RestAfterHit(msg, key, 0, i);
    RestIsNoLonger(msg, key, i + |key|);
    MarkDiffers(msg, key, i, Rest(msg, key, i + |key|));
    assert msg[0..i] == msg[..i];
  }

  lemma {:induction false} MarkStays(msg: string, from: nat)
    requires from <= |msg|
    ensures Rest(msg, REDACTED, from) == msg[from..]
    decreases |msg| - from
  {
    var i := NextHit(msg, REDACTED, from);
    if i == |msg| {
      RestAtEnd(msg, REDACTED, from);
    } else {
      MarkStays(msg, i + |REDACTED|);
      RestAfterHit(msg, REDACTED, from, i);
      CutAtHit(msg, REDACTED, from, i);
    }
  }

  /** Redacting a long key again changes nothing exactly when the mark cannot complete it, or is it. */
  lemma LongKeyIdempotentIff(key: string)
    requires |key| >= LONG_KEY_BYTES
    ensures (forall msg :: Redacted(Redacted(msg, key), key) == Redacted(msg, key)) <==> !Completes(key) || key == REDACTED
  {
    LongKeyIsGoneIff(key);
    if key == REDACTED {
      forall msg ensures Redacted(msg, key) == msg {
        MarkStays(msg, 0);
        assert msg[0..] == msg;
      }
    } else if !Completes(key) {
      forall msg ensures Redacted(Redacted(msg, key), key) == Redacted(msg, key) {
        NoHitNoChange(Redacted(msg, key), key);
      }
    } else {
      var msg, p: nat :| Occurs(Redacted(msg, key), key, p);
      HitChanges(Redacted(msg, key), key, p);
    }
  }
}
