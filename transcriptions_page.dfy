/**
 * The saved-transcriptions page of app/transcriptions/page.tsx: the
 * duration text of each entry and the list the page holds, which a
 * successful delete filters and a fetch replaces.
 *
 * Outside the model: the database calls (whether the delete or the fetch
 * succeeded, and what it returned, are parameters), the redirect of a
 * signed-out visitor, toasts and rendering.
 */
module TranscriptionsPage {
  import opened Wrappers
  import opened Text

  /** `formatDuration(seconds)`: hours and minutes are shown only from the first non-zero one on. */
  function FormatDuration(seconds: nat): string {
    DurationText(seconds / 3600, seconds % 3600 / 60, seconds % 60)
  }

  /** The text for given hours, minutes and seconds. */
  function DurationText(hours: nat, minutes: nat, rest: nat): string {
    if hours > 0 then NatToString(hours) + "h " + NatToString(minutes) + "m " + NatToString(rest) + "s"
    else if minutes > 0 then NatToString(minutes) + "m " + NatToString(rest) + "s"
    else NatToString(rest) + "s"
  }

  /** The three fields decompose the seconds: minutes and seconds below 60, hours not wrapped. */
  lemma DurationParts(seconds: nat)
    ensures var hours, minutes, rest := seconds / 3600, seconds % 3600 / 60, seconds % 60;
            minutes < 60 && rest < 60 && hours * 3600 + minutes * 60 + rest == seconds
  {
    var q, r := seconds / 3600, seconds % 3600;
    assert seconds == 3600 * q + r;
    assert r == 60 * (r / 60) + r % 60;
    assert r % 60 == seconds % 60 by {
      assert seconds == 60 * (60 * q + r / 60) + r % 60;
    }
  }

  /** `s` starts with `p`. */
  predicate StartsWith(s: string, p: string) {
    |p| <= |s| && s[..|p|] == p
  }

  /** Reads `{s}s`. */
  function ParseSeconds(text: string): Option<nat> {
    match ReadNat(text)
    case None => None
    case Some((s, rest)) => if rest == "s" then Some(s) else None
  }

  /** Reads `{m}m {s}s`. */
  function ParseMinutes(text: string): Option<(nat, nat)> {
    match ReadNat(text)
    case None => None
    case Some((m, rest)) =>
      if StartsWith(rest, "m ") then
        match ParseSeconds(rest[2..])
        case None => None
        case Some(s) => Some((m, s))
      else None
  }

  /** Reads `{h}h {m}m {s}s`, `{m}m {s}s` or `{s}s` back as (hours, minutes, seconds); None for anything else. */
  function ParseDuration(text: string): Option<(nat, nat, nat)> {
    match ReadNat(text)
    case None => None
    case Some((a, rest)) =>
      if rest == "s" then Some((0, 0, a))
      else if StartsWith(rest, "m ") then
        match ParseSeconds(rest[2..])
        case None => None
        case Some(s) => Some((0, a, s))
      else if StartsWith(rest, "h ") then
        match ParseMinutes(rest[2..])
        case None => None
        case Some((m, s)) => Some((a, m, s))
      else None
  }

  /** `NatToString(n) + rest` split after the number. */
  lemma ReadField(n: nat, rest: string)
    requires |rest| > 0 && !IsDigit(rest[0])
    ensures ReadNat(NatToString(n) + rest) == Some((n, rest))
  {
    ReadNatToString(n, rest);
  }

  /** The duration text is read back to its three fields, so it determines the seconds. */
  lemma FormatDurationRoundTrip(seconds: nat)
    ensures ParseDuration(FormatDuration(seconds)) == Some((seconds / 3600, seconds % 3600 / 60, seconds % 60))
  {
    DurationTextRoundTrip(seconds / 3600, seconds % 3600 / 60, seconds % 60);
  }

  lemma DurationTextRoundTrip(hours: nat, minutes: nat, rest: nat)
    ensures ParseDuration(DurationText(hours, minutes, rest)) == Some((hours, minutes, rest))
  {
    if hours > 0 {
      ParseThreeFields(hours, minutes, rest);
    } else if minutes > 0 {
      ParseTwoFields(minutes, rest);
    } else {
      ParseOneField(rest);
    }
  }

  lemma ParseOneField(s: nat)
    ensures ParseDuration(NatToString(s) + "s") == Some((0, 0, s))
    ensures ParseSeconds(NatToString(s) + "s") == Some(s)
  {
    ReadField(s, "s");
  }

  lemma ParseMinutesField(m: nat, s: nat)
    ensures ParseMinutes(NatToString(m) + ("m " + (NatToString(s) + "s"))) == Some((m, s))
  {
    var tail := NatToString(s) + "s";
    ReadField(m, "m " + tail);
    assert ("m " + tail)[2..] == tail;
    ParseOneField(s);
  }

  lemma ParseTwoFields(m: nat, s: nat)
    ensures ParseDuration(NatToString(m) + "m " + NatToString(s) + "s") == Some((0, m, s))
  {
    var tail := NatToString(s) + "s";
    var r1 := "m " + tail;
    assert NatToString(m) + "m " + NatToString(s) + "s" == NatToString(m) + r1;
    ReadField(m, r1);
    assert r1 != "s" && StartsWith(r1, "m ");
    assert r1[2..] == tail;
    ParseOneField(s);
  }

  lemma ParseThreeFields(h: nat, m: nat, s: nat)
    ensures ParseDuration(NatToString(h) + "h " + NatToString(m) + "m " + NatToString(s) + "s") == Some((h, m, s))
  {
    var inner := NatToString(m) + ("m " + (NatToString(s) + "s"));
    var r1 := "h " + inner;
    assert NatToString(h) + "h " + NatToString(m) + "m " + NatToString(s) + "s" == NatToString(h) + r1;
    ReadField(h, r1);
    assert r1 != "s" && !StartsWith(r1, "m ") && StartsWith(r1, "h ");
    assert r1[2..] == inner;
    ParseMinutesField(m, s);
  }

  /** Two durations show the same text exactly when they are equal. */
  lemma FormatDurationInjective(a: nat, b: nat)
    ensures FormatDuration(a) == FormatDuration(b) <==> a == b
  {
    if FormatDuration(a) == FormatDuration(b) {
      FormatDurationRoundTrip(a);
      FormatDurationRoundTrip(b);
      DurationParts(a);
      DurationParts(b);
    }
  }

  lemma NoUnitInDigits(n: nat, c: char)
    requires !IsDigit(c)
    ensures c !in NatToString(n)
  {
  }

  /** The hour field appears from one hour on, the minute field from one minute on, and the text always ends in seconds. */
  lemma FormatDurationFields(seconds: nat)
    ensures 'h' in FormatDuration(seconds) <==> seconds >= 3600
    ensures 'm' in FormatDuration(seconds) <==> seconds >= 60
    ensures FormatDuration(seconds)[|FormatDuration(seconds)| - 1] == 's'
  {
    var hours, minutes, rest := seconds / 3600, seconds % 3600 / 60, seconds % 60;
    DurationParts(seconds);
    NoUnitInDigits(hours, 'h');
    NoUnitInDigits(hours, 'm');
    NoUnitInDigits(minutes, 'h');
    NoUnitInDigits(minutes, 'm');
    NoUnitInDigits(rest, 'h');
    NoUnitInDigits(rest, 'm');
    var text := FormatDuration(seconds);
    if hours > 0 {
      assert text[|NatToString(hours)|] == 'h';
      assert text[|NatToString(hours)| + 2 + |NatToString(minutes)|] == 'm';
    } else if minutes > 0 {
      assert text[|NatToString(minutes)|] == 'm';
    }
  }

  /** A saved transcription as the page lists it. */
  datatype Transcription = Transcription(id: string, title: string, content: string, duration: nat, createdAt: string)

  /** `transcriptions.filter((t) => t.id !== id)`. */
  function RemoveId(list: seq<Transcription>, id: string): seq<Transcription>
    decreases |list|
  {
    if |list| == 0 then []
    else RemoveId(list[..|list| - 1], id) + (if list[|list| - 1].id != id then [list[|list| - 1]] else [])
  }

  /** Removing is piecewise: each part of the list is filtered in place. */
  lemma {:induction false} RemoveIdAppend(a: seq<Transcription>, b: seq<Transcription>, id: string)
    ensures RemoveId(a + b, id) == RemoveId(a, id) + RemoveId(b, id)
    decreases |b|
  {
    if |b| == 0 {
      assert a + b == a;
    } else {
      assert (a + b)[..|a + b| - 1] == a + b[..|b| - 1];
      RemoveIdAppend(a, b[..|b| - 1], id);
    }
  }

  /**
   * The entries left are exactly the others, in their order: none carries
   * `id` (`RemoveIdGone`), each entry carrying another id is kept as many
   * times as it was (`RemoveIdKeeps`), and a list without `id` is left as it
   * is (`RemoveIdAbsent`).
   */
  lemma {:induction false} RemoveIdGone(list: seq<Transcription>, id: string)
    ensures forall i :: 0 <= i < |RemoveId(list, id)| ==> RemoveId(list, id)[i].id != id
    decreases |list|
  {
    if |list| > 0 {
      RemoveIdGone(list[..|list| - 1], id);
    }
  }

  lemma {:induction false} RemoveIdKeeps(list: seq<Transcription>, id: string, t: Transcription)
    requires t.id != id
    ensures multiset(RemoveId(list, id))[t] == multiset(list)[t]
    decreases |list|
  {
    if |list| > 0 {
      var init, last := list[..|list| - 1], list[|list| - 1];
      RemoveIdKeeps(init, id, t);
      assert list == init + [last];
    }
  }

  lemma {:induction false} RemoveIdAbsent(list: seq<Transcription>, id: string)
    requires forall i :: 0 <= i < |list| ==> list[i].id != id
    ensures RemoveId(list, id) == list
    decreases |list|
  {
    if |list| > 0 {
      var init := list[..|list| - 1];
      assert forall i :: 0 <= i < |init| ==> init[i] == list[i];
      RemoveIdAbsent(init, id);
      assert list == init + [list[|list| - 1]];
    }
  }

  lemma RemoveIdIdempotent(list: seq<Transcription>, id: string)
    ensures RemoveId(RemoveId(list, id), id) == RemoveId(list, id)
  {
    RemoveIdGone(list, id);
    RemoveIdAbsent(RemoveId(list, id), id);
  }

  /** What the initial fetch returned: rows (None when the response had no data), or an error. */
  datatype Fetch = Fetched(data: Option<seq<Transcription>>) | FetchFailed

  /** The page's state. */
  class Page {
    var transcriptions: seq<Transcription>
    var loading: bool
    var deleting: Option<string>

    constructor ()
      ensures transcriptions == [] && loading && deleting == None
    {
      transcriptions := [];
      loading := true;
      deleting := None;
    }

    /** The end of `fetchTranscriptions`: `data || []` on success, the list kept on error, loading over in both cases. */
    method FinishFetch(result: Fetch)
      modifies this
      ensures result.Fetched? ==> transcriptions == (if result.data.Some? then result.data.value else [])
      ensures result.FetchFailed? ==> transcriptions == old(transcriptions)
      ensures !loading && deleting == old(deleting)
    {
      if result.Fetched? {
        transcriptions := if result.data.Some? then result.data.value else [];
      }
      loading := false;
    }

    /** `deleteTranscription`: a successful delete drops every entry with that id; the marker is cleared either way. */
    method DeleteTranscription(id: string, deleted: bool)
      modifies this
      ensures transcriptions == if deleted then RemoveId(old(transcriptions), id) else old(transcriptions)
      ensures deleting == None && loading == old(loading)
    {
      deleting := Some(id);
      if deleted {
        transcriptions := RemoveId(transcriptions, id);
      }
      deleting := None;
    }
  }
}
