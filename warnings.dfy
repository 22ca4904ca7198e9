/**
 * The alert badges of the dashboard (html/warnings.js, fetchWarning): the
 * summaries of an alert feed's entries are folded into a badge colour and a
 * count of the entries that announce something.
 */
module Warnings {

  import Text

  datatype Color = Green | Grey | Yellow | Red

  /** The CSS class name of a colour. */
  function ColorName(c: Color): string {
    match c
    case Green => "green"
    case Grey => "grey"
    case Yellow => "yellow"
    case Red => "red"
  }

  /** Whether a summary mentions `word`, ignoring case. */
  predicate Mentions(summary: string, word: string) {
    Text.Contains(Text.Lower(summary), word)
  }

  /** Some summary of the feed mentions `word`. */
  predicate Announces(summaries: seq<string>, word: string) {
    exists i :: 0 <= i < |summaries| && Mentions(summaries[i], word)
  }

  /** A summary that the badge counts: it mentions a warning, a watch or a statement. */
  predicate Relevant(summary: string) {
    Mentions(summary, "warning") || Mentions(summary, "watch") || Mentions(summary, "statement")
  }

  /**
   * The colour a feed deserves: red when any summary mentions a warning,
   * yellow when none does but one mentions a watch, grey when there are only
   * statements, green otherwise.
   */
  function Severity(summaries: seq<string>): (c: Color)
    ensures c == Green <==> forall i :: 0 <= i < |summaries| ==> !Relevant(summaries[i])
    ensures c == Red <==> exists i :: 0 <= i < |summaries| && Mentions(summaries[i], "warning")
  {
    if Announces(summaries, "warning") then Red
    else if Announces(summaries, "watch") then Yellow
    else if Announces(summaries, "statement") then Grey
    else Green
  }

  /** The number of relevant summaries. */
  function RelevantCount(summaries: seq<string>): (n: nat)
    ensures n <= |summaries|
  {
    if summaries == [] then 0
    else RelevantCount(summaries[..|summaries| - 1]) + (if Relevant(summaries[|summaries| - 1]) then 1 else 0)
  }

  /** The badge's inner HTML: the text it is built from, followed by the count when there is one. */
  function BadgeHtml(text: string, count: nat): string {
    if count > 0 then text + "<span>" + Text.NatToString(count) + "</span>" else text
  }

  /**
   * The badge's textContent once its inner HTML is BadgeHtml(text, count):
   * the digits in the span join the text. Badge labels are plain text, with
   * no markup characters of their own.
   */
  function TextAfter(text: string, count: nat): string {
    if count > 0 then text + Text.NatToString(count) else text
  }

  /**
   * The badge's textContent after one refresh per feed in `feeds`, starting
   * from the label the page is served with: every refresh builds its HTML
   * from the textContent the previous refresh left behind.
   */
  function BadgeText(badgeLabel: string, feeds: seq<seq<string>>): string {
    if feeds == [] then badgeLabel
    else TextAfter(BadgeText(badgeLabel, feeds[..|feeds| - 1]), RelevantCount(feeds[|feeds| - 1]))
  }

  /** The digits of every positive count of `feeds`, one refresh after the other. */
  function CountDigits(feeds: seq<seq<string>>): string {
    if feeds == [] then ""
    else TextAfter(CountDigits(feeds[..|feeds| - 1]), RelevantCount(feeds[|feeds| - 1]))
  }

  /** The count's digits go at the end of the text, whatever precedes it. */
  lemma TextAfterAppend(prefix: string, text: string, count: nat)
    ensures TextAfter(prefix + text, count) == prefix + TextAfter(text, count)
  {
    if count > 0 {
      assert (prefix + text) + Text.NatToString(count) == prefix + (text + Text.NatToString(count));
    }
  }

  /** Adding one summary to a feed adds it to the mentions. */
  lemma AnnouncesSnoc(summaries: seq<string>, s: string, word: string)
    ensures Announces(summaries + [s], word) <==> Announces(summaries, word) || Mentions(s, word)
  {
    var t := summaries + [s];
    if Announces(summaries, word) {
      var i :| 0 <= i < |summaries| && Mentions(summaries[i], word);
      assert t[i] == summaries[i];
    }
    if Mentions(s, word) {
      assert t[|summaries|] == s;
    }
    if Announces(t, word) {
      var i :| 0 <= i < |t| && Mentions(t[i], word);
      if i < |summaries| {
        assert t[i] == summaries[i];
      }
    }
  }

  /** The colour of a feed grows by one summary as fetchWarning's loop body updates it. */
  lemma SeveritySnoc(summaries: seq<string>, s: string)
    ensures var c := Severity(summaries);
      Severity(summaries + [s]) ==
        if Mentions(s, "warning") then Red
        else if Mentions(s, "watch") then (if c != Red then Yellow else c)
        else if Mentions(s, "statement") then (if c != Red && c != Yellow then Grey else c)
        else c
  {
    AnnouncesSnoc(summaries, s, "warning");
    AnnouncesSnoc(summaries, s, "watch");
    AnnouncesSnoc(summaries, s, "statement");
  }

  /** The count grows by one exactly for a relevant summary. */
  lemma RelevantCountSnoc(summaries: seq<string>, s: string)
    ensures RelevantCount(summaries + [s]) == RelevantCount(summaries) + (if Relevant(s) then 1 else 0)
  {
    assert (summaries + [s])[..|summaries|] == summaries;
  }

  /**
   * fetchWarning's fold over the summaries: the badge's class name and inner
   * HTML for a feed whose entries have the given summaries.
   */
  method FetchWarning(summaries: seq<string>, textContent: string) returns (className: string, html: string, nextText: string)
    ensures className == "warning-badge " + ColorName(Severity(summaries))
    ensures html == BadgeHtml(textContent, RelevantCount(summaries))
    ensures nextText == TextAfter(textContent, RelevantCount(summaries))
  {
    var colorClass := Green;
    var count := 0;
    for i := 0 to |summaries|
      invariant colorClass == Severity(summaries[..i])
      invariant count == RelevantCount(summaries[..i])
    {
      var summary := Text.Lower(summaries[i]);
      SeveritySnoc(summaries[..i], summaries[i]);
      RelevantCountSnoc(summaries[..i], summaries[i]);
      assert summaries[..i + 1] == summaries[..i] + [summaries[i]];
      if Text.Contains(summary, "warning") {
        colorClass := Red;
        count := count + 1;
      } else if Text.Contains(summary, "watch") {
        if colorClass != Red {
          colorClass := Yellow;
        }
        count := count + 1;
      } else if Text.Contains(summary, "statement") {
        if colorClass != Red && colorClass != Yellow {
          colorClass := Grey;
        }
        count := count + 1;
      }
    }
    assert summaries[..|summaries|] == summaries;
    className := "warning-badge " + ColorName(colorClass);
    html := BadgeHtml(textContent, count);
    nextText := TextAfter(textContent, count);
  }

  /** The count is positive exactly when some summary is relevant. */
  lemma {:induction false} CountPositive(summaries: seq<string>)
    ensures RelevantCount(summaries) > 0 <==> exists i :: 0 <= i < |summaries| && Relevant(summaries[i])
    decreases |summaries|
  {
    if summaries != [] {
      var init := summaries[..|summaries| - 1];
      CountPositive(init);
      assert forall i :: 0 <= i < |init| ==> init[i] == summaries[i];
      if exists i :: 0 <= i < |summaries| && Relevant(summaries[i]) {
        var i :| 0 <= i < |summaries| && Relevant(summaries[i]);
        if i < |init| {
          assert Relevant(init[i]);
        }
      }
    }
  }

  /** A feed is counted exactly when its badge is not green. */
  lemma CountedIffColored(summaries: seq<string>)
    ensures RelevantCount(summaries) > 0 <==> Severity(summaries) != Green
  {
    CountPositive(summaries);
    forall i | 0 <= i < |summaries| && Relevant(summaries[i])
      ensures Severity(summaries) != Green
    {
      if Mentions(summaries[i], "warning") {
        assert Announces(summaries, "warning");
      } else if Mentions(summaries[i], "watch") {
        assert Announces(summaries, "watch");
      } else {
        assert Announces(summaries, "statement");
      }
    }
  }

  /**
   * A badge rebuilt from its label on every refresh shows a count exactly
   * when it is not green, whatever earlier refreshes showed.
   */
  lemma BadgeShowsCountIffColored(summaries: seq<string>, badgeLabel: string)
    ensures BadgeHtml(badgeLabel, RelevantCount(summaries)) != badgeLabel <==> Severity(summaries) != Green
  {
    CountedIffColored(summaries);
    var n := RelevantCount(summaries);
    if n > 0 {
      assert |BadgeHtml(badgeLabel, n)| > |badgeLabel|;
    }
  }

  /** Upper and lower case do not matter: a summary and its lower-cased copy weigh the same. */
  lemma CaseIgnored(summary: string, word: string)
    ensures Mentions(Text.Lower(summary), word) <==> Mentions(summary, word)
  {
    assert Text.Lower(Text.Lower(summary)) == Text.Lower(summary);
  }

  /** One warning makes the badge red whatever else the feed holds. */
  lemma WarningDominates(before: seq<string>, s: string, after: seq<string>)
    requires Mentions(s, "warning")
    ensures Severity(before + [s] + after) == Red
  {
    var t := before + [s] + after;
    assert t[|before|] == s;
  }

  /**
   * As written, a badge's text is its label followed by the digits of every
   * positive count since the page was loaded: the counts pile up.
   */
  lemma {:induction false} DigitsPileUp(badgeLabel: string, feeds: seq<seq<string>>)
    ensures BadgeText(badgeLabel, feeds) == badgeLabel + CountDigits(feeds)
    decreases |feeds|
  {
    if feeds != [] {
      var init := feeds[..|feeds| - 1];
      DigitsPileUp(badgeLabel, init);
      TextAfterAppend(badgeLabel, CountDigits(init), RelevantCount(feeds[|feeds| - 1]));
    }
  }

  /**
   * As written, a refresh that finds nothing after one that counted leaves the
   * old count on the badge, now green: its HTML is the label followed by the
   * earlier count's digits.
   */
  lemma StaleCountOnGreen(badgeLabel: string, earlier: seq<string>, later: seq<string>)
    requires Severity(earlier) != Green && Severity(later) == Green
    ensures RelevantCount(earlier) > 0
    ensures BadgeHtml(BadgeText(badgeLabel, [earlier]), RelevantCount(later)) == badgeLabel + Text.NatToString(RelevantCount(earlier))
    ensures BadgeHtml(BadgeText(badgeLabel, [earlier]), RelevantCount(later)) != badgeLabel
  {
    CountedIffColored(earlier);
    CountedIffColored(later);
    assert [earlier][..0] == [];
  }

  /** A summary whose lower-cased text holds `word` at index `i` mentions it. */
  lemma MentionsAt(summary: string, word: string, i: nat)
    requires Text.OccursAt(Text.Lower(summary), word, i)
    ensures Mentions(summary, word)
  {
  }

  /** A feed of one summary that mentions a warning is red and counts one. */
  lemma OneWarningCounted(summary: string)
    requires Mentions(summary, "warning")
    ensures Severity([summary]) == Red
    ensures RelevantCount([summary]) == 1
  {
    var feed := [summary];
    assert Mentions(feed[0], "warning");
    assert feed[..0] == [];
  }

  /** The Kent badge after a tornado warning and then a quiet feed reads "Kent1" on green. */
  lemma StaleKentBadge(summary: string)
    requires summary == "Tornado Warning"
    ensures Severity([summary]) == Red && Severity([]) == Green
    ensures BadgeHtml(BadgeText("Kent", [[summary]]), RelevantCount([])) == "Kent1"
  {
    assert Text.Lower(summary)[8..15] == "warning";
    MentionsAt(summary, "warning", 8);
    OneWarningCounted(summary);
    StaleCountOnGreen("Kent", [summary], []);
    assert Text.NatToString(1) == "1";
  }
}
