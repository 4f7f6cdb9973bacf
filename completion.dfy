/**
 * Extraction of the JSON candidate from the model's completion text
 * (src/app/api/enrich/route.ts). The route matches the completion against
 * the regular expression  /```(?:json)?\n([\s\S]*?)\n```/  and uses the
 * captured group when it is non-empty, and the whole completion otherwise.
 *
 * The matcher below follows JavaScript's search order: start positions are
 * tried from the left; at a start position the optional `json` is tried
 * before its absence; the lazy group takes the shortest body that a closing
 * fence follows. Beside it stands the declarative meaning of a match
 * (IsMatch), and the lemmas tie the two together.
 */
module Completion {
  import opened Wrappers
  import opened Strings

  /** The opening fence with the optional language tag, and without it. */
  const JsonOpening: string := "```json\n"
  const PlainOpening: string := "```\n"

  /** The closing fence, which the lazy group must be followed by. */
  const Closing: string := "\n```"

  /** An opening fence starts at `i` and the capture group starts at `b`. */
  predicate OpensAt(raw: string, i: int, b: int) {
    || (OccursAt(raw, i, JsonOpening) && b == i + |JsonOpening|)
    || (OccursAt(raw, i, PlainOpening) && b == i + |PlainOpening|)
  }

  /** A closing fence starts at `j`. */
  predicate ClosesAt(raw: string, j: int) {
    OccursAt(raw, j, Closing)
  }

  /** The regular expression matches `raw` from index `i`, its group spanning `raw[b..j]`. */
  predicate IsMatch(raw: string, i: int, b: int, j: int) {
    OpensAt(raw, i, b) && b <= j && ClosesAt(raw, j)
  }

  /** No closing fence starts in `[b, j)`: the group ending at `j` is the shortest one from `b`. */
  predicate Shortest(raw: string, b: int, j: int) {
    forall k :: b <= k < j ==> !ClosesAt(raw, k)
  }

  /** No match of the regular expression starts before `i`. */
  ghost predicate NoMatchBefore(raw: string, i: int) {
    forall i', b, j :: i' < i ==> !IsMatch(raw, i', b, j)
  }

  /** The two openings cannot both start at one index, so the start of a match fixes its group's start. */
  lemma OpeningIsUnique(raw: string, i: int, b: int, b': int)
    requires OpensAt(raw, i, b) && OpensAt(raw, i, b')
    ensures b == b'
  {
    if OccursAt(raw, i, JsonOpening) && OccursAt(raw, i, PlainOpening) {
      assert raw[i + 3] == JsonOpening[3] == 'j';
      assert raw[i + 3] == PlainOpening[3] == '\n';
    }
  }

  /** A match: where it starts, and where its captured group starts and ends. */
  datatype Match = Match(start: nat, bodyStart: nat, bodyEnd: nat)

  /** The earliest closing fence at or after `b`: where the lazy group stops. */
  function FirstClose(raw: string, b: nat): (r: Option<nat>)
    ensures r.Some? ==> b <= r.value && ClosesAt(raw, r.value) && Shortest(raw, b, r.value)
    ensures r.None? ==> forall k :: b <= k ==> !ClosesAt(raw, k)
    decreases |raw| - b
  {
    if b + |Closing| > |raw| then None
    else if ClosesAt(raw, b) then Some(b)
    else FirstClose(raw, b + 1)
  }

  /** The regular expression tried at start index `i`: first with `json`, then without. */
  function MatchAt(raw: string, i: nat): (r: Option<Match>)
    ensures r.Some? ==> r.value.start == i && IsMatch(raw, i, r.value.bodyStart, r.value.bodyEnd)
    ensures r.Some? ==> Shortest(raw, r.value.bodyStart, r.value.bodyEnd)
    ensures r.None? ==> forall b, j :: !IsMatch(raw, i, b, j)
  {
    if OccursAt(raw, i, JsonOpening) && FirstClose(raw, i + |JsonOpening|).Some? then
      Some(Match(i, i + |JsonOpening|, FirstClose(raw, i + |JsonOpening|).value))
    else if OccursAt(raw, i, PlainOpening) && FirstClose(raw, i + |PlainOpening|).Some? then
      Some(Match(i, i + |PlainOpening|, FirstClose(raw, i + |PlainOpening|).value))
    else
      None
  }

  /** The leftmost match starting at index `i` or later. */
  function Search(raw: string, i: nat): (r: Option<Match>)
    ensures r.Some? ==> i <= r.value.start && IsMatch(raw, r.value.start, r.value.bodyStart, r.value.bodyEnd)
    ensures r.Some? ==> Shortest(raw, r.value.bodyStart, r.value.bodyEnd)
    ensures r.Some? ==> forall i', b, j :: i <= i' < r.value.start ==> !IsMatch(raw, i', b, j)
    ensures r.None? ==> forall i', b, j :: i <= i' ==> !IsMatch(raw, i', b, j)
    decreases |raw| + 1 - i
  {
    if i > |raw| then None
    else match MatchAt(raw, i)
      case Some(m) => Some(m)
      case None => Search(raw, i + 1)
  }

  /** `raw.match(regex)`: the leftmost match with the shortest group, or none. */
  function FindFence(raw: string): (r: Option<Match>)
    ensures r.Some? ==> IsMatch(raw, r.value.start, r.value.bodyStart, r.value.bodyEnd)
    ensures r.Some? ==> Shortest(raw, r.value.bodyStart, r.value.bodyEnd)
    ensures r.Some? ==> NoMatchBefore(raw, r.value.start)
    ensures r.None? <==> forall i, b, j :: !IsMatch(raw, i, b, j)
  {
    Search(raw, 0)
  }

  /**
   * The JSON candidate: the fenced body when the completion has a fenced
   * block with a non-empty body, otherwise the whole completion.
   */
  function Extract(raw: string): (candidate: string)
    ensures |candidate| <= |raw|
  {
    match FindFence(raw)
    case Some(m) => if m.bodyStart < m.bodyEnd then raw[m.bodyStart..m.bodyEnd] else raw
    case None => raw
  }

  /**
   * Whatever the search order, the match found is the unique one that starts
   * leftmost and has the shortest group.
   */
  lemma FenceIsLeftmostShortest(raw: string, i: int, b: int, j: int)
    requires IsMatch(raw, i, b, j) && NoMatchBefore(raw, i) && Shortest(raw, b, j)
    ensures FindFence(raw) == Some(Match(i, b, j))
  {
    var m := FindFence(raw).value;
    assert m.start == i;
    OpeningIsUnique(raw, i, b, m.bodyStart);
  }

  /** With a fenced block whose body is non-empty, the candidate is exactly that body. */
  lemma ExtractFencedBody(raw: string, i: int, b: int, j: int)
    requires IsMatch(raw, i, b, j) && NoMatchBefore(raw, i) && Shortest(raw, b, j)
    requires b < j
    ensures Extract(raw) == raw[b..j]
  {
    FenceIsLeftmostShortest(raw, i, b, j);
  }

  /** A fenced block with an empty body is falsy: the whole completion is the candidate. */
  lemma ExtractEmptyBodyFallsBack(raw: string, i: int, b: int)
    requires IsMatch(raw, i, b, b) && NoMatchBefore(raw, i)
    ensures Extract(raw) == raw
  {
    FenceIsLeftmostShortest(raw, i, b, b);
  }

  /** Without any fenced block, the whole completion is the candidate, unchanged. */
  lemma ExtractWithoutFence(raw: string)
    requires forall i, b, j :: !IsMatch(raw, i, b, j)
    ensures Extract(raw) == raw
  {
  }

  /** A group with no closing fence starting inside it contains no closing fence. */
  lemma ShortestHasNoClosing(raw: string, b: int, j: int)
    requires 0 <= b <= j <= |raw| && Shortest(raw, b, j)
    ensures !Contains(raw[b..j], Closing)
  {
    var body := raw[b..j];
    if Contains(body, Closing) {
      var k :| 0 <= k <= |body| - |Closing| && OccursAt(body, k, Closing);
      assert forall x :: 0 <= x < |body| ==> body[x] == raw[b + x];
      assert raw[b + k..b + k + |Closing|] == body[k..k + |Closing|];
      assert ClosesAt(raw, b + k);
    }
  }

  /** The candidate taken from a fence never contains the closing fence: the group is lazy. */
  lemma FencedBodyHasNoClosing(raw: string)
    requires FindFence(raw).Some?
    ensures !Contains(raw[FindFence(raw).value.bodyStart..FindFence(raw).value.bodyEnd], Closing)
  {
    var m := FindFence(raw).value;
    ShortestHasNoClosing(raw, m.bodyStart, m.bodyEnd);
  }

  /** The candidate is either the whole completion or a part of it that holds no closing fence. */
  lemma ExtractIsRawOrFencedBody(raw: string)
    ensures Extract(raw) == raw || (Contains(raw, Extract(raw)) && !Contains(Extract(raw), Closing))
  {
    match FindFence(raw)
    case None =>
    case Some(m) =>
      if m.bodyStart < m.bodyEnd {
        FencedBodyHasNoClosing(raw);
        assert OccursAt(raw, m.bodyStart, raw[m.bodyStart..m.bodyEnd]);
      }
  }

  /** Every match starts with a backtick inside the completion. */
  lemma MatchStartsWithBacktick(raw: string, i: int, b: int, j: int)
    ensures IsMatch(raw, i, b, j) ==> 0 <= i < |raw| && raw[i] == '`'
  {
    if IsMatch(raw, i, b, j) {
      var opening := if OccursAt(raw, i, JsonOpening) then JsonOpening else PlainOpening;
      assert raw[i..i + |opening|] == opening;
      assert raw[i] == raw[i..i + |opening|][0];
    }
  }

  /** Every closing fence starts with a line feed inside the completion. */
  lemma ClosingStartsWithNewline(raw: string, k: int)
    ensures ClosesAt(raw, k) ==> 0 <= k < |raw| && raw[k] == '\n'
  {
    if ClosesAt(raw, k) {
      assert raw[k] == raw[k..k + |Closing|][0];
    }
  }

  /** A completion without a backtick has no fenced block. */
  lemma NoBacktickNoFence(raw: string)
    requires '`' !in raw
    ensures Extract(raw) == raw
  {
    forall i, b, j
      ensures !IsMatch(raw, i, b, j)
    {
      MatchStartsWithBacktick(raw, i, b, j);
    }
  }

  /** Prose around a json-tagged fence: only the fenced JSON is the candidate. */
  lemma ExtractExampleFenced()
    ensures Extract("Here is the result:\n" + JsonOpening + "{\"color\":\"red\"}" + Closing + "\nThanks!") == "{\"color\":\"red\"}"
  {
    var pre := "Here is the result:\n";
    var body := "{\"color\":\"red\"}";
    var raw := pre + JsonOpening + body + Closing + "\nThanks!";
    var i := |pre|;
    var b := i + |JsonOpening|;
    var j := b + |body|;
    assert raw[i..b] == JsonOpening;
    assert raw[b..j] == body;
    assert raw[j..j + |Closing|] == Closing;
    assert IsMatch(raw, i, b, j);
    assert '`' !in pre;
    forall i', b', j'
      ensures i' < i ==> !IsMatch(raw, i', b', j')
    {
      MatchStartsWithBacktick(raw, i', b', j');
      if 0 <= i' < i {
        assert raw[i'] == pre[i'];
      }
    }
    assert '\n' !in body;
    forall k
      ensures b <= k < j ==> !ClosesAt(raw, k)
    {
      ClosingStartsWithNewline(raw, k);
      if b <= k < j {
        assert raw[k] == body[k - b];
      }
    }
    ExtractFencedBody(raw, i, b, j);
  }

  /** A completion that is bare JSON is the candidate as it is. */
  lemma ExtractExampleBare()
    ensures Extract("{\"color\":\"red\"}") == "{\"color\":\"red\"}"
  {
    NoBacktickNoFence("{\"color\":\"red\"}");
  }
}
