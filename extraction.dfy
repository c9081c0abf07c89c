/**
 * The clean-up `extract_trip_details` applies to the language model's reply
 * before decoding it as JSON: strip it, and cut away a surrounding Markdown
 * code fence (three backticks, optionally tagged `json`).
 */
module Extraction {
  import opened Text

  const JsonFence: string := "```json"
  const Fence: string := "```"

  /** Python's `s[front:-back]` for `front >= 0` and `back >= 1`. */
  function SliceBetween(s: string, front: nat, back: nat): (r: string)
    requires back >= 1
    ensures front + back <= |s| ==> r == s[front..|s| - back]
    ensures front + back >= |s| ==> r == []
  {
    if front + back <= |s| then s[front..|s| - back] else []
  }

  /**
   * The fence cut on an already stripped reply: seven leading characters
   * dropped after a `json`-tagged fence, three after a bare fence, three
   * trailing characters in both cases, and the rest stripped again.
   */
  function Unfence(t: string): (r: string)
    ensures |r| <= |t|
    ensures Trimmed(t) ==> Trimmed(r)
  {
    if StartsWith(t, JsonFence) then Strip(SliceBetween(t, 7, 3))
    else if StartsWith(t, Fence) then Strip(SliceBetween(t, 3, 3))
    else t
  }

  /** `response_text` as handed to `json.loads`. */
  function CleanResponse(text: string): (r: string)
    ensures Trimmed(r)
    ensures |r| <= |text|
  {
    Unfence(Strip(text))
  }

  /** Stripping a reply whose ends are not whitespace leaves it as it is. */
  lemma StripKeepsTrimmed(left: string, t: string, right: string)
    requires AllSpace(left) && AllSpace(right) && Trimmed(t)
    ensures CleanResponse(left + t + right) == Unfence(t)
  {
    StripOfPadded(left, t, right);
  }

  lemma UnfenceJson(body: string)
    ensures Unfence(JsonFence + body + Fence) == Strip(body)
  {
    var t := JsonFence + body + Fence;
    assert StartsWith(t, JsonFence);
    assert SliceBetween(t, 7, 3) == body;
  }

  lemma UnfenceBare(body: string)
    requires !StartsWith(body, "json")
    ensures Unfence(Fence + body + Fence) == Strip(body)
  {
    var t := Fence + body + Fence;
    assert !StartsWith(t, JsonFence) by {
      if |body| >= 4 {
        assert t[..7][3..] == body[..4];
      } else if |t| >= 7 {
        assert t[..7][|body| + 3] == '`' != JsonFence[|body| + 3];
      }
    }
    assert StartsWith(t, Fence);
    assert SliceBetween(t, 3, 3) == body;
  }

  lemma UnfenceUnclosed(body: string)
    requires |body| >= 3
    ensures Unfence(JsonFence + body) == Strip(body[..|body| - 3])
  {
    var t := JsonFence + body;
    assert StartsWith(t, JsonFence);
    assert SliceBetween(t, 7, 3) == body[..|body| - 3];
  }

  lemma UnfenceBareUnclosed(body: string)
    requires |body| >= 3 && !StartsWith(body, "json")
    ensures Unfence(Fence + body) == Strip(body[..|body| - 3])
  {
    var t := Fence + body;
    assert !StartsWith(t, JsonFence) by {
      if |body| >= 4 {
        assert t[..7][3..] == body[..4];
      }
    }
    assert StartsWith(t, Fence);
    assert SliceBetween(t, 3, 3) == body[..|body| - 3];
  }

  /** A `json`-tagged fenced reply yields the fenced text, stripped. */
  lemma UnwrapsJsonFence(left: string, body: string, right: string)
    requires AllSpace(left) && AllSpace(right)
    ensures CleanResponse(left + JsonFence + body + Fence + right) == Strip(body)
  {
    var t := JsonFence + body + Fence;
    assert left + JsonFence + body + Fence + right == left + t + right;
    assert Trimmed(t);
    StripKeepsTrimmed(left, t, right);
    UnfenceJson(body);
  }

  /** A bare fenced reply yields the fenced text, stripped, unless that text starts with `json`. */
  lemma UnwrapsBareFence(left: string, body: string, right: string)
    requires AllSpace(left) && AllSpace(right)
    requires !StartsWith(body, "json")
    ensures CleanResponse(left + Fence + body + Fence + right) == Strip(body)
  {
    var t := Fence + body + Fence;
    assert left + Fence + body + Fence + right == left + t + right;
    assert Trimmed(t);
    StripKeepsTrimmed(left, t, right);
    UnfenceBare(body);
  }

  /** A reply that does not start with a fence is only stripped. */
  lemma UnfencedOnlyStripped(text: string)
    requires !StartsWith(Strip(text), Fence)
    ensures CleanResponse(text) == Strip(text)
  {
    UnfenceLeavesUnfenced(Strip(text));
  }

  lemma UnfenceLeavesUnfenced(t: string)
    requires !StartsWith(t, Fence)
    ensures Unfence(t) == t
  {
    assert !StartsWith(t, JsonFence) by {
      if |t| >= 7 {
        assert t[..7][..3] == t[..3];
      }
    }
  }

  /**
   * A `json`-tagged fence that is never closed still loses the reply's last
   * three characters.
   */
  lemma UnclosedFenceLosesThreeCharacters(body: string)
    requires |body| >= 3 && Trimmed(body)
    ensures CleanResponse(JsonFence + body) == Strip(body[..|body| - 3])
  {
    var t := JsonFence + body;
    assert [] + t + [] == t;
    assert Trimmed(t);
    StripKeepsTrimmed([], t, []);
    UnfenceUnclosed(body);
  }

  /**
   * A bare fence that is never closed loses the reply's last three
   * characters in the same way.
   */
  lemma UnclosedBareFenceLosesThreeCharacters(body: string)
    requires |body| >= 3 && Trimmed(body) && !StartsWith(body, "json")
    ensures CleanResponse(Fence + body) == Strip(body[..|body| - 3])
  {
    var t := Fence + body;
    assert [] + t + [] == t;
    assert Trimmed(t);
    StripKeepsTrimmed([], t, []);
    UnfenceBareUnclosed(body);
  }
}
