/**
 * `renderBlockquote`: wraps the HTML of a markdown blockquote in a `<blockquote>` whose
 * CSS class is chosen from a marker emoji right after the opening `<p>`, removing the
 * first occurrence of that marker.
 */
module Blockquote {
  import opened Wrappers
  import opened Strings

  /** U+2139 INFORMATION SOURCE with emoji presentation selector U+FE0F. */
  const InfoMarker: string := "\U{2139}\U{FE0F}"
  /** U+1F4D8 BLUE BOOK. */
  const BookMarker: string := "\U{1F4D8}"
  /** U+26A0 WARNING SIGN with emoji presentation selector U+FE0F. */
  const WarningMarker: string := "\U{26A0}\U{FE0F}"

  const ClassPrefix: string := "<blockquote class=\""
  const InfoOpen: string := "<blockquote class=\"info-blockquote\">"
  const WarningOpen: string := "<blockquote class=\"warning-blockquote\">"
  const Close: string := "</blockquote>"

  /** The opening tag of the warning block or of the info block. */
  function Open(warning: bool): (open: string)
    ensures StartsWith(open, ClassPrefix)
  {
    if warning then WarningOpen else InfoOpen
  }

  /** The block around `inner`. */
  function Wrap(warning: bool, inner: string): (html: string)
    ensures StartsWith(html, Open(warning)) && StartsWith(html, ClassPrefix) && EndsWith(html, Close)
    ensures |html| == |Open(warning)| + |inner| + |Close|
  {
    var open := Open(warning);
    var html := open + inner + Close;
    assert html[..|open|] == open;
    assert html[..|ClassPrefix|] == open[..|ClassPrefix|];
    assert html[|open| + |inner|..] == Close;
    html
  }

  const InfoLead: string := "<p>" + InfoMarker
  const BookLead: string := "<p>" + BookMarker
  const WarningLead: string := "<p>" + WarningMarker + " "

  /** The marker whose branch the text takes, tested in the source's order; `None` for the default branch. */
  function Marker(text: string): (m: Option<string>)
    ensures m == Some(InfoMarker) <==> StartsWith(text, InfoLead)
    ensures m == Some(BookMarker) <==> !StartsWith(text, InfoLead) && StartsWith(text, BookLead)
    ensures m == Some(WarningMarker) <==>
      !StartsWith(text, InfoLead) && !StartsWith(text, BookLead) && StartsWith(text, WarningLead)
  {
    if StartsWith(text, InfoLead) then Some(InfoMarker)
    else if StartsWith(text, BookLead) then Some(BookMarker)
    else if StartsWith(text, WarningLead) then Some(WarningMarker)
    else None
  }

  /** `text.replace(marker, '').trim()`. */
  function Strip(text: string, marker: string): string {
    Trim(ReplaceFirst(text, marker, ""))
  }

  /** The whole transform. */
  function RenderBlockquote(text: string): (html: string)
    ensures StartsWith(html, ClassPrefix) && EndsWith(html, Close)
  {
    match Marker(text)
    case Some(m) => Wrap(m == WarningMarker, Strip(text, m))
    case None => Wrap(false, text)
  }

  /** Removing the first marker after `<p>` and trimming keeps `<p>` and everything after the marker but trailing blanks. */
  lemma MarkerAfterParagraph(marker: string, rest: string)
    requires |marker| > 0 && marker[0] != '<' && marker[0] != 'p' && marker[0] != '>'
    ensures Trim(ReplaceFirst("<p>" + marker + rest, marker, "")) == "<p>" + TrimEnd(rest)
  {
    var s := "<p>" + rest;
    assert ReplaceFirst("<p>" + marker + rest, marker, "") == s by {
      ReplaceFirstAfterFreePrefix("<p>", marker, rest, "");
      assert "<p>" + "" + rest == s;
    }
    assert TrimStart(s) == s by {
      assert s[0] == '<';
    }
    assert TrimEnd(s) == "<p>" + TrimEnd(rest) by {
      TrimEndAfterSolid("<p>", rest);
    }
  }

  /** An info block is never a warning block. */
  lemma InfoIsNotWarning(html: string)
    requires StartsWith(html, InfoOpen)
    ensures !StartsWith(html, WarningOpen)
  {
    assert html[19] == html[..|InfoOpen|][19] == 'i';
    DiffersAt(html, WarningOpen, 19);
  }

  /** A text that starts with a lead holds the lead's marker right after `<p>`. */
  lemma LeadHoldsMarker(text: string, marker: string)
    requires StartsWith(text, "<p>" + marker)
    ensures OccursAt(text, marker, 3) && Contains(text, marker)
  {
    assert text[3..3 + |marker|] == text[..3 + |marker|][3..];
    assert ("<p>" + marker)[3..] == marker;
    ContainsIff(text, marker, 3);
  }

  /** `<p>` + info marker: info class, the first marker removed, the result trimmed (lines 6-8). */
  lemma InfoPrefix(rest: string)
    ensures RenderBlockquote(InfoLead + rest) == Wrap(false, "<p>" + TrimEnd(rest))
  {
    var text := InfoLead + rest;
    assert Marker(text) == Some(InfoMarker) by {
      assert text[..|InfoLead|] == InfoLead;
    }
    assert Strip(text, InfoMarker) == "<p>" + TrimEnd(rest) by {
      MarkerAfterParagraph(InfoMarker, rest);
    }
  }

  /** `<p>` + book marker: the same info class, with the book marker removed (lines 9-11). */
  lemma BookPrefix(rest: string)
    ensures RenderBlockquote(BookLead + rest) == Wrap(false, "<p>" + TrimEnd(rest))
  {
    var text := BookLead + rest;
    assert Marker(text) == Some(BookMarker) by {
      assert text[..|BookLead|] == BookLead;
      DiffersAt(text, InfoLead, 3);
    }
    assert Strip(text, BookMarker) == "<p>" + TrimEnd(rest) by {
      MarkerAfterParagraph(BookMarker, rest);
    }
  }

  /** `<p>` + warning marker + space: warning class; the space goes with the trimming only when nothing solid follows (lines 12-14). */
  lemma WarningPrefix(rest: string)
    ensures RenderBlockquote(WarningLead + rest) == Wrap(true, "<p>" + TrimEnd(" " + rest))
  {
    var text := WarningLead + rest;
    assert Marker(text) == Some(WarningMarker) by {
      assert text[..|WarningLead|] == WarningLead;
      DiffersAt(text, InfoLead, 3);
      DiffersAt(text, BookLead, 3);
    }
    assert Strip(text, WarningMarker) == "<p>" + TrimEnd(" " + rest) by {
      assert text == "<p>" + WarningMarker + (" " + rest);
      MarkerAfterParagraph(WarningMarker, " " + rest);
    }
  }

  /** The warning class is chosen exactly when the text starts with `<p>`, the warning marker and a space. */
  lemma WarningClassIff(text: string)
    ensures StartsWith(RenderBlockquote(text), WarningOpen) <==> StartsWith(text, WarningLead)
  {
    if StartsWith(text, WarningLead) {
      assert text[3] == text[..|WarningLead|][3];
      DiffersAt(text, InfoLead, 3);
      DiffersAt(text, BookLead, 3);
    } else {
      InfoIsNotWarning(RenderBlockquote(text));
    }
  }

  /** The text comes back wrapped unchanged exactly when it has none of the three recognised prefixes (lines 17-18). */
  lemma UnchangedIffNoPrefix(text: string)
    ensures RenderBlockquote(text) == Wrap(false, text) <==>
      !StartsWith(text, InfoLead) && !StartsWith(text, BookLead) && !StartsWith(text, WarningLead)
  {
    match Marker(text)
    case None =>
    case Some(m) =>
      if m == WarningMarker {
        WarningClassIff(text);
        InfoIsNotWarning(Wrap(false, text));
      } else {
        LeadHoldsMarker(text, m);
        RemovalShortens(text, m);
      }
  }

  /** Removing an occurring marker and trimming leaves a strictly shorter text. */
  lemma RemovalShortens(text: string, marker: string)
    requires |marker| > 0 && Contains(text, marker)
    ensures |Strip(text, marker)| < |text|
  {
  }
}
