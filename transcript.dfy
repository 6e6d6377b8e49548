/**
 * The transcript view's speaker/word alignment: each speaker segment gathers the run of
 * words, starting at a shared cursor, whose end timestamp does not pass the segment's end,
 * and the word highlighting that follows playback time.
 */
module Transcript {
  import opened Types

  /** The label the diarization model gives to spans where nobody speaks. */
  const NO_SPEAKER: string := "NO_SPEAKER"

  /** `{...segment, chunks}`: a kept segment, all of its fields, and the words collected for it. */
  datatype Group = Group(segment: Segment, chunks: seq<Word>)

  predicate IsNoSpeaker(s: Segment) {
    s.speakerLabel == Some(NO_SPEAKER)
  }

  /** A word fits under a segment when its end timestamp is at most the segment's end. */
  predicate Fits(w: Word, end: real) {
    w.end <= end
  }

  /** A chunk is highlighted while the playback time lies in the half-open span [start, end). */
  predicate Bolded(w: Word, currentTime: real) {
    w.start <= currentTime && currentTime < w.end
  }

  // ---------------------------------------------------------------------------------------
  // Specification of the scan

  /** Index of the first word at or after `from` that does not fit under `end`, or |words|. */
  function ScanEnd(words: seq<Word>, from: nat, end: real): (k: nat)
    requires from <= |words|
    ensures from <= k <= |words|
    ensures forall i :: from <= i < k ==> Fits(words[i], end)
    ensures k < |words| ==> !Fits(words[k], end)
    decreases |words| - from
  {
    if from == |words| then from
    else if Fits(words[from], end) then ScanEnd(words, from + 1, end)
    else from
  }

  /**
   * The cursor after a kept segment. It moves only when the scan stopped on a word that
   * does not fit; a scan that runs off the end of `words` leaves it where it was.
   */
  function Advance(words: seq<Word>, prev: nat, end: real): (next: nat)
    requires prev <= |words|
    ensures prev <= next <= |words|
    ensures next != prev ==> next < |words| && !Fits(words[next], end)
    ensures next != prev ==> forall i :: prev <= i < next ==> Fits(words[i], end)
    ensures (exists i :: prev <= i < |words| && !Fits(words[i], end)) ==>
      next < |words| && !Fits(words[next], end) && forall i :: prev <= i < next ==> Fits(words[i], end)
  {
    var k := ScanEnd(words, prev, end);
    if k < |words| then k else prev
  }

  /** The groups the scan emits for `segments`, starting with the cursor at `prev`: at most one per segment. */
  function AlignFrom(words: seq<Word>, segments: seq<Segment>, prev: nat): (r: seq<Group>)
    requires prev <= |words|
    ensures |r| <= |segments|
    decreases |segments|
  {
    if segments == [] then []
    else if IsNoSpeaker(segments[0]) then AlignFrom(words, segments[1..], prev)
    else
      var s := segments[0];
      var chunks := words[prev..ScanEnd(words, prev, s.end)];
      (if |chunks| > 0 then [Group(s, chunks)] else [])
        + AlignFrom(words, segments[1..], Advance(words, prev, s.end))
  }

  /** The whole scan, with the cursor starting at the first word. */
  function Align(words: seq<Word>, segments: seq<Segment>): seq<Group> {
    AlignFrom(words, segments, 0)
  }

  /** The segments that are not labelled NO_SPEAKER, in order. */
  function Kept(segments: seq<Segment>): seq<Segment> {
    if segments == [] then []
    else if IsNoSpeaker(segments[0]) then Kept(segments[1..])
    else [segments[0]] + Kept(segments[1..])
  }

  /** The segments the groups came from, in order. */
  function GroupSegments(groups: seq<Group>): (r: seq<Segment>)
    ensures |r| == |groups|
    ensures forall i :: 0 <= i < |groups| ==> r[i] == groups[i].segment
  {
    if groups == [] then [] else [groups[0].segment] + GroupSegments(groups[1..])
  }

  /** `a` can be obtained from `b` by deleting elements. */
  predicate IsSubsequence(a: seq<Segment>, b: seq<Segment>)
    decreases |b|
  {
    if a == [] then true
    else if b == [] then false
    else (a[0] == b[0] && IsSubsequence(a[1..], b[1..])) || IsSubsequence(a, b[1..])
  }

  /**
   * A well-formed group: its segment is not NO_SPEAKER, and its chunks are a non-empty
   * contiguous run words[a..b] of words that all fit, which stops at the first word that
   * does not fit or at the end of `words`.
   */
  ghost predicate IsMaximalRun(words: seq<Word>, g: Group) {
    !IsNoSpeaker(g.segment) &&
    exists a, b :: 0 <= a < b <= |words| && g.chunks == words[a..b] &&
      (forall i :: a <= i < b ==> Fits(words[i], g.segment.end)) &&
      (b == |words| || !Fits(words[b], g.segment.end))
  }

  /**
   * The groups share one cursor: the first group's chunks start at `c`, and the next group's
   * start where this run stopped, or at `c` again when this run reached the end of `words`.
   */
  ghost predicate FromCursor(words: seq<Word>, groups: seq<Group>, c: nat)
    decreases |groups|
  {
    groups == [] ||
    (var n := c + |groups[0].chunks|;
     n <= |words| && groups[0].chunks == words[c..n] &&
     FromCursor(words, groups[1..], if n < |words| then n else c))
  }

  function TotalChunks(groups: seq<Group>): nat {
    if groups == [] then 0 else |groups[0].chunks| + TotalChunks(groups[1..])
  }

  // ---------------------------------------------------------------------------------------
  // The scan as the view runs it

  /**
   * `postProcessedTranscript`: one cursor `prev` shared by all segments, an inner loop
   * that collects fitting words and, on the first word that does not fit, moves the
   * cursor there and stops.
   */
  method PostProcessedTranscript(transcript: Transcript, segments: seq<Segment>) returns (result: seq<Group>)
    ensures result == Align(transcript.chunks, segments)
    ensures forall g :: g in result ==> IsMaximalRun(transcript.chunks, g)
    ensures FromCursor(transcript.chunks, result, 0)
    ensures IsSubsequence(GroupSegments(result), Kept(segments))
    ensures |result| <= |Kept(segments)|
  {
    var prev: nat := 0;
    var words := transcript.chunks;
    result := [];
    for j := 0 to |segments|
      invariant prev <= |words|
      invariant result + AlignFrom(words, segments[j..], prev) == Align(words, segments)
    {
      var segment := segments[j];
      assert segments[j..][1..] == segments[j + 1..];
      if segment.speakerLabel == Some(NO_SPEAKER) {
        continue;
      }
      var segmentWords;
      segmentWords, prev := CollectWords(words, prev, segment.end);
      if |segmentWords| > 0 {
        result := result + [Group(segment, segmentWords)];
      }
    }
    assert segments[|segments|..] == [];
    assert result == Align(words, segments);
    GroupsAreMaximalRuns(words, segments, 0);
    GroupsShareOneCursor(words, segments, 0);
    GroupsFollowSegmentOrder(words, segments, 0);
    SubsequenceLength(GroupSegments(result), Kept(segments));
  }

  /**
   * The inner loop of `postProcessedTranscript` for one segment: the fitting words from the
   * cursor on, and the cursor after it, moved only by the `break` on a word that does not fit.
   */
  method CollectWords(words: seq<Word>, prev: nat, end: real) returns (segmentWords: seq<Word>, next: nat)
    requires prev <= |words|
    ensures segmentWords == words[prev..ScanEnd(words, prev, end)]
    ensures next == Advance(words, prev, end)
  {
    segmentWords := [];
    next := prev;
    var i := prev;
    while i < |words|
      invariant prev <= i <= |words| && next == prev
      invariant segmentWords == words[prev..i]
      invariant forall m :: prev <= m < i ==> Fits(words[m], end)
    {
      var word := words[i];
      if word.end <= end {
        segmentWords := segmentWords + [word];
      } else {
        next := i;
        break;
      }
      i := i + 1;
    }
    assert i == ScanEnd(words, prev, end);
  }

  // ---------------------------------------------------------------------------------------
  // Properties of the scan

  /**
   * Every emitted group comes from a segment that is not NO_SPEAKER, and its chunks are the
   * maximal non-empty run of fitting words at the cursor.
   */
  lemma {:induction false} GroupsAreMaximalRuns(words: seq<Word>, segments: seq<Segment>, prev: nat)
    requires prev <= |words|
    ensures forall g :: g in AlignFrom(words, segments, prev) ==> IsMaximalRun(words, g)
    decreases |segments|
  {
    if segments != [] {
      var s := segments[0];
      if IsNoSpeaker(s) {
        GroupsAreMaximalRuns(words, segments[1..], prev);
      } else {
        var k := ScanEnd(words, prev, s.end);
        var head := if prev < k then [Group(s, words[prev..k])] else [];
        var tail := AlignFrom(words, segments[1..], Advance(words, prev, s.end));
        GroupsAreMaximalRuns(words, segments[1..], Advance(words, prev, s.end));
        if prev < k {
          assert IsMaximalRun(words, Group(s, words[prev..k]));
        }
        assert AlignFrom(words, segments, prev) == head + tail;
      }
    }
  }

  /**
   * All kept segments share the cursor: each group starts where the previous run stopped,
   * and after a run that reached the end of `words` the next group starts at the same
   * place again.
   */
  lemma {:induction false} GroupsShareOneCursor(words: seq<Word>, segments: seq<Segment>, prev: nat)
    requires prev <= |words|
    ensures FromCursor(words, AlignFrom(words, segments, prev), prev)
    decreases |segments|
  {
    if segments != [] {
      var s := segments[0];
      var next := Advance(words, prev, s.end);
      if IsNoSpeaker(s) {
        GroupsShareOneCursor(words, segments[1..], prev);
      } else {
        var k := ScanEnd(words, prev, s.end);
        var tail := AlignFrom(words, segments[1..], next);
        GroupsShareOneCursor(words, segments[1..], next);
        if prev < k {
          var r := [Group(s, words[prev..k])] + tail;
          assert AlignFrom(words, segments, prev) == r;
          assert r[0].chunks == words[prev..k] && |r[0].chunks| == k - prev && r[1..] == tail;
          assert next == (if k < |words| then k else prev);
        } else {
          assert AlignFrom(words, segments, prev) == tail;
          assert next == prev;
        }
      }
    }
  }

  /**
   * The cursor stays put when a kept segment's scan runs off the end of `words`: the next
   * kept segment, if its end is no earlier, collects those very words again.
   */
  lemma ExhaustedRunIsCollectedAgain(words: seq<Word>, s: Segment, t: Segment, rest: seq<Segment>, prev: nat)
    requires prev < |words| && !IsNoSpeaker(s) && !IsNoSpeaker(t)
    requires ScanEnd(words, prev, s.end) == |words| && s.end <= t.end
    ensures var r := AlignFrom(words, [s, t] + rest, prev);
      |r| >= 2 && r[0] == Group(s, words[prev..]) && r[1] == Group(t, words[prev..])
  {
    var chunks := words[prev..];
    ExhaustedUnderLaterEnd(words, prev, s.end, t.end);
    assert words[prev..ScanEnd(words, prev, t.end)] == chunks;
    var segments := [s, t] + rest;
    assert segments[0] == s && segments[1..] == [t] + rest;
    assert ([t] + rest)[0] == t && ([t] + rest)[1..] == rest;
    var second := AlignFrom(words, [t] + rest, prev);
    assert second == [Group(t, chunks)] + AlignFrom(words, rest, prev);
    assert AlignFrom(words, segments, prev) == [Group(s, chunks)] + second;
  }

  /** A run that reaches the end of `words` under one end reaches it under any later end. */
  lemma ExhaustedUnderLaterEnd(words: seq<Word>, prev: nat, e1: real, e2: real)
    requires prev <= |words| && ScanEnd(words, prev, e1) == |words| && e1 <= e2
    ensures ScanEnd(words, prev, e2) == |words| && Advance(words, prev, e1) == prev && Advance(words, prev, e2) == prev
  {
  }

  /**
   * No word is lost: when some kept segment ends no earlier than every word from the cursor
   * on, each of those words lies in some emitted group.
   */
  lemma {:induction false} Coverage(words: seq<Word>, segments: seq<Segment>, prev: nat, w: nat)
    requires prev <= |words| && w < |segments| && !IsNoSpeaker(segments[w])
    requires forall i :: prev <= i < |words| ==> Fits(words[i], segments[w].end)
    ensures forall i :: prev <= i < |words| ==>
      exists g :: g in AlignFrom(words, segments, prev) && words[i] in g.chunks
    decreases |segments|
  {
    var s := segments[0];
    var r := AlignFrom(words, segments, prev);
    if IsNoSpeaker(s) {
      assert w != 0 && segments[1..][w - 1] == segments[w];
      assert r == AlignFrom(words, segments[1..], prev);
      Coverage(words, segments[1..], prev, w - 1);
    } else {
      var k := ScanEnd(words, prev, s.end);
      var next := Advance(words, prev, s.end);
      var tail := AlignFrom(words, segments[1..], next);
      var head := if prev < k then [Group(s, words[prev..k])] else [];
      assert r == head + tail;
      forall i | prev <= i < k
        ensures exists g :: g in r && words[i] in g.chunks
      {
        var g := Group(s, words[prev..k]);
        assert g in r && g.chunks[i - prev] == words[i];
      }
      if k < |words| {
        assert w != 0 && segments[1..][w - 1] == segments[w];
        assert next == k;
        Coverage(words, segments[1..], k, w - 1);
        forall i | k <= i < |words|
          ensures exists g :: g in r && words[i] in g.chunks
        {
          var g :| g in tail && words[i] in g.chunks;
          assert g in r;
        }
      }
    }
  }

  /**
   * The run at the cursor goes to the first kept segment whose end its first word fits
   * under; every segment before it emits nothing and leaves the cursor where it was.
   */
  lemma {:induction false} FirstFittingSegmentTakesRun(words: seq<Word>, segments: seq<Segment>, prev: nat, j: nat)
    requires prev < |words| && j < |segments| && !IsNoSpeaker(segments[j]) && Fits(words[prev], segments[j].end)
    requires forall i :: 0 <= i < j ==> IsNoSpeaker(segments[i]) || !Fits(words[prev], segments[i].end)
    ensures var r := AlignFrom(words, segments, prev);
      |r| > 0 && r[0] == Group(segments[j], words[prev..ScanEnd(words, prev, segments[j].end)]) &&
      r[1..] == AlignFrom(words, segments[j + 1..], Advance(words, prev, segments[j].end))
    decreases j
  {
    var s := segments[0];
    if j == 0 {
      var k := ScanEnd(words, prev, s.end);
      assert k == ScanEnd(words, prev + 1, s.end);
      var r := [Group(s, words[prev..k])] + AlignFrom(words, segments[1..], Advance(words, prev, s.end));
      assert AlignFrom(words, segments, prev) == r;
      assert r[1..] == AlignFrom(words, segments[1..], Advance(words, prev, s.end));
    } else {
      if !IsNoSpeaker(s) {
        assert !Fits(words[prev], s.end);
        assert ScanEnd(words, prev, s.end) == prev && Advance(words, prev, s.end) == prev;
        assert AlignFrom(words, segments, prev) == [] + AlignFrom(words, segments[1..], prev);
      }
      assert AlignFrom(words, segments, prev) == AlignFrom(words, segments[1..], prev);
      var rest := segments[1..];
      assert rest[j - 1] == segments[j] && rest[j..] == segments[j + 1..];
      assert forall i :: 0 <= i < j - 1 ==> rest[i] == segments[i + 1];
      FirstFittingSegmentTakesRun(words, rest, prev, j - 1);
    }
  }

  /** No emitted group is labelled NO_SPEAKER. */
  lemma NoSpeakerNeverEmitted(words: seq<Word>, segments: seq<Segment>)
    ensures forall g :: g in Align(words, segments) ==> g.segment.speakerLabel != Some(NO_SPEAKER)
  {
    GroupsAreMaximalRuns(words, segments, 0);
  }

  /** Groups appear in the order of the kept segments they come from, at most one per segment. */
  lemma {:induction false} GroupsFollowSegmentOrder(words: seq<Word>, segments: seq<Segment>, prev: nat)
    requires prev <= |words|
    ensures IsSubsequence(GroupSegments(AlignFrom(words, segments, prev)), Kept(segments))
    decreases |segments|
  {
    if segments != [] {
      var s := segments[0];
      var next := Advance(words, prev, s.end);
      if IsNoSpeaker(s) {
        GroupsFollowSegmentOrder(words, segments[1..], prev);
      } else {
        var chunks := words[prev..ScanEnd(words, prev, s.end)];
        var tail := AlignFrom(words, segments[1..], next);
        GroupsFollowSegmentOrder(words, segments[1..], next);
        assert Kept(segments) == [s] + Kept(segments[1..]);
        if |chunks| > 0 {
          assert ([Group(s, chunks)] + tail)[1..] == tail;
          assert GroupSegments([Group(s, chunks)] + tail) == [s] + GroupSegments(tail);
        } else {
          assert AlignFrom(words, segments, prev) == tail;
          SubsequenceOfCons(GroupSegments(tail), s, Kept(segments[1..]));
        }
      }
    }
  }

  lemma SubsequenceOfCons(a: seq<Segment>, x: Segment, b: seq<Segment>)
    requires IsSubsequence(a, b)
    ensures IsSubsequence(a, [x] + b)
  {
    assert ([x] + b)[1..] == b;
  }

  /** A subsequence is no longer than the sequence it is taken from. */
  lemma {:induction false} SubsequenceLength(a: seq<Segment>, b: seq<Segment>)
    requires IsSubsequence(a, b)
    ensures |a| <= |b|
    decreases |b|
  {
    if a != [] && b != [] {
      if a[0] == b[0] && IsSubsequence(a[1..], b[1..]) {
        SubsequenceLength(a[1..], b[1..]);
      } else {
        SubsequenceLength(a, b[1..]);
      }
    }
  }

  /** There are at most as many groups as segments not labelled NO_SPEAKER. */
  lemma GroupCountBound(words: seq<Word>, segments: seq<Segment>)
    ensures |Align(words, segments)| <= |Kept(segments)|
  {
    GroupsAreMaximalRuns(words, segments, 0);
    GroupsShareOneCursor(words, segments, 0);
    GroupsFollowSegmentOrder(words, segments, 0);
    SubsequenceLength(GroupSegments(Align(words, segments)), Kept(segments));
  }

  /**
   * The comparison is inclusive: a word at the cursor whose end equals a kept segment's
   * end is the first chunk of that segment's group.
   */
  lemma BoundaryWordIncluded(words: seq<Word>, s: Segment, rest: seq<Segment>, prev: nat)
    requires prev < |words| && !IsNoSpeaker(s)
    requires words[prev].end == s.end
    ensures var r := AlignFrom(words, [s] + rest, prev);
      |r| > 0 && r[0].segment == s && r[0].chunks[0] == words[prev]
  {
    var segments := [s] + rest;
    assert segments[0] == s && segments[1..] == rest;
    var k := ScanEnd(words, prev, s.end);
    assert k == ScanEnd(words, prev + 1, s.end);
    var chunks := words[prev..k];
    assert |chunks| > 0 && chunks[0] == words[prev];
    assert AlignFrom(words, segments, prev) == [Group(s, chunks)] + AlignFrom(words, rest, Advance(words, prev, s.end));
  }

  /**
   * When a kept segment's scan runs off the end of `words`, the cursor stays put and the
   * next kept segment whose end is no earlier collects the same words again: the scan
   * returns more chunks than there are words.
   */
  lemma RescanAfterExhaustion()
    ensures var w := Word(" hi", 0.0, 1.0);
      var a := Segment(0, Some("SPEAKER_00"), 0.0, 2.0, 0.9);
      var b := Segment(1, Some("SPEAKER_01"), 2.0, 3.0, 0.8);
      Align([w], [a, b]) == [Group(a, [w]), Group(b, [w])] &&
      TotalChunks(Align([w], [a, b])) > |[w]|
  {
    var w := Word(" hi", 0.0, 1.0);
    var a := Segment(0, Some("SPEAKER_00"), 0.0, 2.0, 0.9);
    var b := Segment(1, Some("SPEAKER_01"), 2.0, 3.0, 0.8);
    assert ScanEnd([w], 0, 2.0) == 1 && Advance([w], 0, 2.0) == 0;
    assert ScanEnd([w], 0, 3.0) == 1 && Advance([w], 0, 3.0) == 0;
    assert [w][0..1] == [w];
    assert [a, b][1..] == [b] && [b][1..] == [];
    assert AlignFrom([w], [b], 0) == [Group(b, [w])];
    assert TotalChunks([Group(b, [w])]) == 1;
  }

  /**
   * Two speakers around a silent span: the NO_SPEAKER segment is dropped and each word
   * goes to the first kept segment whose end it fits under.
   */
  lemma TwoSpeakerScenario()
    ensures var hi := Word(" hi", 0.0, 0.4);
      var there := Word(" there", 0.5, 0.9);
      var bye := Word(" bye", 2.0, 2.3);
      var s0 := Segment(0, Some("SPEAKER_00"), 0.0, 1.0, 0.9);
      var ns := Segment(1, Some(NO_SPEAKER), 1.0, 1.8, 0.9);
      var s1 := Segment(2, Some("SPEAKER_01"), 1.8, 2.5, 0.9);
      Align([hi, there, bye], [s0, ns, s1]) == [Group(s0, [hi, there]), Group(s1, [bye])]
  {
    var hi := Word(" hi", 0.0, 0.4);
    var there := Word(" there", 0.5, 0.9);
    var bye := Word(" bye", 2.0, 2.3);
    var ws := [hi, there, bye];
    var s0 := Segment(0, Some("SPEAKER_00"), 0.0, 1.0, 0.9);
    var ns := Segment(1, Some(NO_SPEAKER), 1.0, 1.8, 0.9);
    var s1 := Segment(2, Some("SPEAKER_01"), 1.8, 2.5, 0.9);
    assert ScanEnd(ws, 2, 1.0) == 2;
    assert ScanEnd(ws, 1, 1.0) == 2;
    assert ScanEnd(ws, 0, 1.0) == 2 && Advance(ws, 0, 1.0) == 2;
    assert ScanEnd(ws, 3, 2.5) == 3;
    assert ScanEnd(ws, 2, 2.5) == 3 && Advance(ws, 2, 2.5) == 2;
    assert ws[0..2] == [hi, there] && ws[2..3] == [bye];
    assert [s0, ns, s1][1..] == [ns, s1] && [ns, s1][1..] == [s1] && [s1][1..] == [];
    assert AlignFrom(ws, [s1], 2) == [Group(s1, [bye])];
    assert AlignFrom(ws, [ns, s1], 2) == [Group(s1, [bye])];
    assert AlignFrom(ws, [s0, ns, s1], 0) == [Group(s0, [hi, there])] + [Group(s1, [bye])];
  }

  // ---------------------------------------------------------------------------------------
  // Highlighting

  /** For any chunk, in any order: highlighted at its start exactly when it has positive length, never at its end. */
  lemma HalfOpenHighlight(w: Word)
    ensures !Bolded(w, w.end)
    ensures Bolded(w, w.start) <==> w.start < w.end
  {
  }

  /**
   * Because the span is half-open, a word is highlighted at its start (when it has positive
   * length) but not at its end, and when each chunk ends no later than the next one starts,
   * at most one chunk is highlighted at any playback time.
   */
  lemma AtMostOneHighlighted(chunks: seq<Word>, t: real)
    requires forall i, j :: 0 <= i < j < |chunks| ==> chunks[i].end <= chunks[j].start
    ensures forall i :: 0 <= i < |chunks| ==> !Bolded(chunks[i], chunks[i].end)
    ensures forall i :: 0 <= i < |chunks| ==> (Bolded(chunks[i], chunks[i].start) <==> chunks[i].start < chunks[i].end)
    ensures forall i, j :: 0 <= i < |chunks| && 0 <= j < |chunks| && Bolded(chunks[i], t) && Bolded(chunks[j], t) ==> i == j
  {
  }
}
