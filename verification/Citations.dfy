/**
  Blanking the citations of a customer's own messages before feedback is scanned.
  A span goes only if it is written as a citation and quotes its cited message.

  Where citations start, which characters are white space and what lower case is
  are given; a start is the position of its opening quote and the cited number.
*/
module Citations {
  import opened Common
  import opened Text

  const MIN_WORDS := 3

  datatype Start = Start(quote: nat, number: nat)

  /** A removed quotation: from its opening quote up to and including its closing one. */
  datatype Span = Span(from: nat, to: nat, number: nat)

  predicate ClosingQuote(c: char) { c == '"' || c == '\U{201D}' }

  // ---------------------------------------------------------------------------
  // Loose comparison
  // ---------------------------------------------------------------------------

  function Unfolded(c: char): char {
    if c == '\U{2019}' || c == '\U{2018}' then '\'' else c
  }

  function Folded(text: string): string {
    seq(|text|, i requires 0 <= i < |text| => Unfolded(text[i]))
  }

  function Squash(lang: Lang, text: string): string { Join(Words(lang, lang.lower(text))) }

  /** Two texts compare equal exactly if they have the same words in lower case. */
  lemma SquashComparesWords(lang: Lang, a: string, b: string)
    requires lang.space(' ')
    ensures Words(lang, Squash(lang, a)) == Words(lang, lang.lower(a))
    ensures Squash(lang, a) == Squash(lang, b) <==> Words(lang, lang.lower(a)) == Words(lang, lang.lower(b))
  {
    WordsAreSpaceless(lang, lang.lower(a));
    WordsAreSpaceless(lang, lang.lower(b));
    SplitJoined(lang, Words(lang, lang.lower(a)));
    SplitJoined(lang, Words(lang, lang.lower(b)));
  }

  predicate PartAt(text: string, part: string, i: nat) {
    i + |part| <= |text| && text[i..i + |part|] == part
  }

  predicate Contains(text: string, part: string) {
    exists i | 0 <= i <= |text| :: PartAt(text, part, i)
  }

  predicate Apostrophe(c: char) { c == '\'' || c == '\U{2018}' || c == '\U{2019}' }

  /** Folding writes every apostrophe straight and leaves everything else. */
  lemma FoldedExactly(text: string)
    ensures |Folded(text)| == |text|
    ensures forall i :: 0 <= i < |text| ==> Folded(text)[i] == if Apostrophe(text[i]) then '\'' else text[i]
  {
  }

  /** Curly and straight apostrophes quote alike, and nothing else does: two texts fold to the same exactly if they differ in those alone. */
  lemma FoldsAlikeExactly(a: string, b: string)
    ensures Folded(a) == Folded(b) <==>
            |a| == |b| && forall i :: 0 <= i < |a| ==> a[i] == b[i] || (Apostrophe(a[i]) && Apostrophe(b[i]))
  {
    FoldedExactly(a);
    FoldedExactly(b);
    if Folded(a) == Folded(b) {
      forall i | 0 <= i < |a| ensures a[i] == b[i] || (Apostrophe(a[i]) && Apostrophe(b[i])) {
        assert Folded(a)[i] == Folded(b)[i];
      }
    }
  }

  // ---------------------------------------------------------------------------
  // Proven quotations
  // ---------------------------------------------------------------------------

  /** The quote opened at `start` and closed at `closing` quotes the source, in three words or more. */
  predicate Quotes(lang: Lang, text: string, start: nat, closing: nat, source: string) {
    start < closing < |text| && ClosingQuote(text[closing]) &&
    var inner := Squash(lang, Folded(text[start + 1..closing]));
    |Words(lang, inner)| >= MIN_WORDS && Contains(source, inner)
  }

  predicate Cites(lang: Lang, text: string, s: Start, closing: nat, sources: seq<string>) {
    1 <= s.number <= |sources| && Quotes(lang, text, s.quote, closing, sources[s.number - 1])
  }

  /**
    A citation, spelled out: it names a message there is, a straight or closing curly
    quote ends it, and what is between has three words or more and is in lower case,
    with single spaces and straight apostrophes, a piece of that message.
  */
  lemma CitesExactly(lang: Lang, text: string, s: Start, closing: nat, sources: seq<string>)
    requires lang.space(' ') && s.quote < closing < |text|
    ensures Cites(lang, text, s, closing, sources) <==>
              && 1 <= s.number <= |sources| && text[closing] in {'"', '\U{201D}'}
              && var words := Words(lang, lang.lower(Folded(text[s.quote + 1..closing])));
                 |words| >= 3 && exists before, after :: sources[s.number - 1] == before + Join(words) + after
  {
    var words := Words(lang, lang.lower(Folded(text[s.quote + 1..closing])));
    SquashComparesWords(lang, Folded(text[s.quote + 1..closing]), "");
    if 1 <= s.number <= |sources| { ContainsExactly(sources[s.number - 1], Join(words)); }
  }

  lemma ContainsExactly(text: string, part: string)
    ensures Contains(text, part) <==> exists before, after :: text == before + part + after
  {
    if Contains(text, part) {
      var i :| 0 <= i <= |text| && PartAt(text, part, i);
      assert text == text[..i] + part + text[i + |part|..];
    }
    if before, after :| text == before + part + after {
      assert PartAt(text, part, |before|);
    }
  }

  /** The starts a scan from left to right finds. */
  predicate Ordered(text: string, starts: seq<Start>) {
    && (forall i :: 0 <= i < |starts| ==> starts[i].quote < |text|)
    && (forall i, j :: 0 <= i < j < |starts| ==> starts[i].quote < starts[j].quote)
  }

  /** The last closing quote that makes it a quotation of the source ends before `end`. */
  ghost predicate LastQuote(lang: Lang, text: string, start: nat, end: nat, source: string) {
    end > 0 && Quotes(lang, text, start, end - 1, source) &&
    forall closing :: end <= closing < |text| ==> !Quotes(lang, text, start, closing, source)
  }

  ghost predicate NoQuote(lang: Lang, text: string, start: nat, source: string) {
    forall closing :: 0 <= closing < |text| ==> !Quotes(lang, text, start, closing, source)
  }

  /** A span belongs to a start and is what that start cites, up to the last closing quote that would do. */
  ghost predicate Proven(lang: Lang, text: string, starts: seq<Start>, sources: seq<string>, s: Span) {
    && Start(s.from, s.number) in starts
    && 1 <= s.number <= |sources| && LastQuote(lang, text, s.from, s.to, sources[s.number - 1])
  }

  predicate Disjoint(spans: seq<Span>) {
    forall i, j :: 0 <= i < j < |spans| ==> spans[i].to <= spans[j].from
  }

  ghost predicate Within(spans: seq<Span>, position: nat) {
    exists i :: 0 <= i < |spans| && spans[i].from <= position < spans[i].to
  }

  ghost predicate CitesNothing(lang: Lang, text: string, s: Start, sources: seq<string>) {
    forall closing :: 0 <= closing < |text| ==> !Cites(lang, text, s, closing, sources)
  }

  ghost predicate AllProven(lang: Lang, text: string, starts: seq<Start>, sources: seq<string>, spans: seq<Span>) {
    forall i :: 0 <= i < |spans| ==> Proven(lang, text, starts, sources, spans[i])
  }

  /** A start that is not within a span cites nothing. */
  ghost predicate Complete(lang: Lang, text: string, starts: seq<Start>, sources: seq<string>, spans: seq<Span>) {
    forall s :: s in starts && !Within(spans, s.quote) ==> CitesNothing(lang, text, s, sources)
  }

  predicate Inside(text: string, spans: seq<Span>) {
    Disjoint(spans) && forall i :: 0 <= i < |spans| ==> spans[i].from < spans[i].to <= |text|
  }

  function EndOf(spans: seq<Span>): nat { if spans == [] then 0 else spans[|spans| - 1].to }

  /** The text up to the last span's end, with one space for every span. */
  function Front(text: string, spans: seq<Span>): string
    requires Inside(text, spans)
  {
    if spans == [] then ""
    else
      var n := |spans| - 1;
      assert Inside(text, spans[..n]) && EndOf(spans[..n]) <= spans[n].from;
      Front(text, spans[..n]) + text[EndOf(spans[..n])..spans[n].from] + " "
  }

  /** Every span replaced by one space, everything else kept. */
  function Blanked(text: string, spans: seq<Span>): string
    requires Inside(text, spans)
  {
    Front(text, spans) + text[EndOf(spans)..]
  }

  /** How much shorter the text before a position became. */
  function Saved(spans: seq<Span>, position: nat): int {
    if spans == [] then 0
    else
      var last := spans[|spans| - 1];
      Saved(spans[..|spans| - 1], position) + if last.to <= position then last.to - last.from - 1 else 0
  }

  lemma {:induction false} SavedBefore(text: string, spans: seq<Span>, position: nat)
    requires Inside(text, spans) && EndOf(spans) <= position
    ensures |Front(text, spans)| == EndOf(spans) - Saved(spans, position)
  {
    if spans != [] {
      var n := |spans| - 1;
      assert Inside(text, spans[..n]) && EndOf(spans[..n]) <= spans[n].from;
      SavedBefore(text, spans[..n], position);
    }
  }

  lemma FrontOfLast(text: string, spans: seq<Span>)
    requires Inside(text, spans) && spans != []
    ensures var n := |spans| - 1;
            && Inside(text, spans[..n]) && EndOf(spans[..n]) <= spans[n].from
            && Front(text, spans) == Front(text, spans[..n]) + (text[EndOf(spans[..n])..spans[n].from] + " ")
  {
  }

  lemma {:induction false} FrontVerbatim(text: string, spans: seq<Span>, position: nat)
    requires Inside(text, spans) && position < EndOf(spans) && !Within(spans, position)
    ensures 0 <= position - Saved(spans, position) < |Front(text, spans)|
    ensures Front(text, spans)[position - Saved(spans, position)] == text[position]
  {
    var n := |spans| - 1;
    var rest := spans[..n];
    FrontOfLast(text, spans);
    assert position < spans[n].from;
    if EndOf(rest) <= position {
      SavedBefore(text, rest, position);
      InMiddle(Front(text, rest), text, EndOf(rest), spans[n].from, position);
    } else {
      assert forall i :: 0 <= i < n ==> rest[i] == spans[i];
      FrontVerbatim(text, rest, position);
    }
  }

  lemma InMiddle(front: string, text: string, lo: nat, hi: nat, position: nat)
    requires lo <= position < hi <= |text|
    ensures (front + text[lo..hi] + " ")[|front| + position - lo] == text[position]
  {
  }

  /** Every character outside the spans is still there, moved left by what was saved before it. */
  lemma KeptVerbatim(text: string, spans: seq<Span>, position: nat)
    requires Inside(text, spans) && position < |text| && !Within(spans, position)
    ensures 0 <= position - Saved(spans, position) < |Blanked(text, spans)|
    ensures Blanked(text, spans)[position - Saved(spans, position)] == text[position]
  {
    if position < EndOf(spans) {
      FrontVerbatim(text, spans, position);
    } else {
      SavedBefore(text, spans, position);
    }
  }

  // ---------------------------------------------------------------------------
  // The code
  // ---------------------------------------------------------------------------

  /** The end of the quotation that starts at a quote: the last closing quote that makes it one. */
  method CitationEnd(lang: Lang, text: string, start: nat, source: string) returns (end: Option<nat>)
    requires start < |text|
    ensures match end
            case Some(e) => LastQuote(lang, text, start, e, source)
            case None => NoQuote(lang, text, start, source)
  {
    for closing := |text| downto start + 1
      invariant forall c :: closing <= c < |text| ==> !Quotes(lang, text, start, c, source)
    {
      if ClosingQuote(text[closing]) {
        var inner := Squash(lang, Folded(text[start + 1..closing]));
        if |Words(lang, inner)| >= MIN_WORDS && Contains(source, inner) {
          return Some(closing + 1);
        }
      }
    }
    return None;
  }

  /** The end of a citation that starts behind the cursor and cites its own source. */
  method EndOfCitation(lang: Lang, text: string, s: Start, cursor: nat, sources: seq<string>) returns (end: Option<nat>)
    requires s.quote < |text|
    ensures match end
            case Some(e) => s.quote >= cursor && 1 <= s.number <= |sources| && LastQuote(lang, text, s.quote, e, sources[s.number - 1])
            case None => s.quote < cursor || CitesNothing(lang, text, s, sources)
  {
    end := None;
    if 1 <= s.number <= |sources| && s.quote >= cursor {
      end := CitationEnd(lang, text, s.quote, sources[s.number - 1]);
    }
  }

  method StripNormalised(lang: Lang, text: string, starts: seq<Start>, sources: seq<string>)
    returns (stripped: string)
    requires Ordered(text, starts)
    ensures exists spans :: Settled(lang, text, starts, sources, spans) && stripped == Blanked(text, spans)
    ensures sources == [] ==> stripped == text
  {
    var kept, cursor, spans := Scan(lang, text, starts, sources);
    ScanDone(lang, text, starts, sources, spans);
    stripped := kept + text[cursor..];
    if sources == [] { NoSources(lang, text, starts, spans); }
  }

  /** The loop over the starts. */
  method Scan(lang: Lang, text: string, starts: seq<Start>, sources: seq<string>)
    returns (kept: string, cursor: nat, ghost spans: seq<Span>)
    requires Ordered(text, starts)
    ensures Scanned(lang, text, starts, sources, |starts|, spans) && cursor == EndOf(spans) && kept == Front(text, spans)
  {
    kept, cursor, spans := "", 0, [];
    for k := 0 to |starts|
      invariant Scanned(lang, text, starts, sources, k, spans) && cursor == EndOf(spans) && kept == Front(text, spans)
    {
      var s := starts[k];
      var end := EndOfCitation(lang, text, s, cursor, sources);
      if end.Some? {
        ghost var span := Span(s.quote, end.value, s.number);
        ScanHit(lang, text, starts, sources, k, spans, span);
        AddFront(text, spans, span);
        kept := kept + (text[cursor..s.quote] + " ");
        spans := spans + [span];
        cursor := end.value;
      } else {
        ScanMiss(lang, text, starts, sources, k, spans);
      }
    }
  }

  /** The spans found among the first k starts. */
  ghost predicate Scanned(lang: Lang, text: string, starts: seq<Start>, sources: seq<string>, k: nat, spans: seq<Span>)
    requires k <= |starts|
  {
    && Inside(text, spans) && EndOf(spans) <= |text|
    && (spans != [] && k < |starts| ==> spans[|spans| - 1].from < starts[k].quote)
    && AllProven(lang, text, starts, sources, spans) && Complete(lang, text, starts[..k], sources, spans)
  }

  lemma ScanHit(lang: Lang, text: string, starts: seq<Start>, sources: seq<string>, k: nat, spans: seq<Span>, span: Span)
    requires Ordered(text, starts) && k < |starts| && Scanned(lang, text, starts, sources, k, spans)
    requires starts[k] == Start(span.from, span.number) && EndOf(spans) <= span.from
    requires 1 <= span.number <= |sources| && LastQuote(lang, text, span.from, span.to, sources[span.number - 1])
    ensures Scanned(lang, text, starts, sources, k + 1, spans + [span])
  {
    AddSpan(text, spans, span);
    AddProven(lang, text, starts, sources, spans, span);
    StillComplete(lang, text, starts[..k], sources, spans, span);
    assert starts[..k + 1] == starts[..k] + [starts[k]];
  }

  lemma ScanDone(lang: Lang, text: string, starts: seq<Start>, sources: seq<string>, spans: seq<Span>)
    requires Scanned(lang, text, starts, sources, |starts|, spans)
    ensures Settled(lang, text, starts, sources, spans)
  {
    assert starts[..|starts|] == starts;
  }

  lemma ScanMiss(lang: Lang, text: string, starts: seq<Start>, sources: seq<string>, k: nat, spans: seq<Span>)
    requires Ordered(text, starts) && k < |starts| && Scanned(lang, text, starts, sources, k, spans)
    requires starts[k].quote < EndOf(spans) || CitesNothing(lang, text, starts[k], sources)
    ensures Scanned(lang, text, starts, sources, k + 1, spans)
  {
    assert starts[..k + 1] == starts[..k] + [starts[k]];
    assert starts[k].quote < EndOf(spans) ==> Within(spans, starts[k].quote);
  }

  lemma AddSpan(text: string, spans: seq<Span>, span: Span)
    requires Inside(text, spans) && EndOf(spans) <= span.from < span.to <= |text|
    ensures Inside(text, spans + [span])
    ensures forall p: nat :: Within(spans, p) || p == span.from ==> Within(spans + [span], p)
  {
    var more := spans + [span];
    assert forall i :: 0 <= i < |spans| ==> spans[i].to <= EndOf(spans);
    assert Inside(text, more);
    forall p: nat | Within(spans, p) || p == span.from ensures Within(more, p) {
      if Within(spans, p) {
        var i :| 0 <= i < |spans| && spans[i].from <= p < spans[i].to;
        assert more[i] == spans[i];
      } else {
        assert more[|spans|] == span;
      }
    }
  }

  lemma AddFront(text: string, spans: seq<Span>, span: Span)
    requires Inside(text, spans) && Inside(text, spans + [span])
    ensures EndOf(spans) <= span.from && EndOf(spans + [span]) == span.to
    ensures Front(text, spans + [span]) == Front(text, spans) + (text[EndOf(spans)..span.from] + " ")
  {
    var more := spans + [span];
    assert more[|spans|] == span && forall i :: 0 <= i < |spans| ==> more[i] == spans[i];
    FrontOfLast(text, more);
    assert more[..|spans|] == spans;
  }

  lemma AddProven(lang: Lang, text: string, starts: seq<Start>, sources: seq<string>, spans: seq<Span>, span: Span)
    requires AllProven(lang, text, starts, sources, spans) && Start(span.from, span.number) in starts
    requires 1 <= span.number <= |sources| && LastQuote(lang, text, span.from, span.to, sources[span.number - 1])
    ensures AllProven(lang, text, starts, sources, spans + [span])
  {
    assert Proven(lang, text, starts, sources, span);
  }

  lemma StillComplete(lang: Lang, text: string, starts: seq<Start>, sources: seq<string>, spans: seq<Span>, span: Span)
    requires Complete(lang, text, starts, sources, spans)
    requires forall p: nat :: Within(spans, p) || p == span.from ==> Within(spans + [span], p)
    ensures Complete(lang, text, starts + [Start(span.from, span.number)], sources, spans + [span])
  {
  }

  /** Without sources nothing is blanked. */
  lemma NoSources(lang: Lang, text: string, starts: seq<Start>, spans: seq<Span>)
    requires Inside(text, spans) && AllProven(lang, text, starts, [], spans)
    ensures spans == [] && Blanked(text, spans) == text
  {
    assert |spans| > 0 ==> Proven(lang, text, starts, [], spans[0]);
    assert text[0..] == text;
  }

  ghost predicate Settled(lang: Lang, text: string, starts: seq<Start>, sources: seq<string>, spans: seq<Span>) {
    && Inside(text, spans)
    && AllProven(lang, text, starts, sources, spans) && Complete(lang, text, starts, sources, spans)
  }

  lemma {:induction false} OnlyOneWay(lang: Lang, text: string, starts: seq<Start>, sources: seq<string>, a: seq<Span>, b: seq<Span>, n: nat)
    requires Ordered(text, starts) && n <= |a|
    requires Settled(lang, text, starts, sources, a) && Settled(lang, text, starts, sources, b)
    ensures n <= |b| && a[..n] == b[..n]
  {
    if n > 0 {
      OnlyOneWay(lang, text, starts, sources, a, b, n - 1);
      NextAgrees(lang, text, starts, sources, a, b, n - 1);
      OneLonger(a, b, n - 1);
    }
  }

  lemma OneLonger(a: seq<Span>, b: seq<Span>, n: nat)
    requires n < |a| && n < |b| && a[..n] == b[..n] && a[n] == b[n]
    ensures a[..n + 1] == b[..n + 1]
  {
    assert a[..n + 1] == a[..n] + [a[n]] && b[..n + 1] == b[..n] + [b[n]];
  }

  /**
    What is removed is settled by these properties alone: two such lists of spans
    are the same.
  */
  lemma SameSpans(lang: Lang, text: string, starts: seq<Start>, sources: seq<string>, a: seq<Span>, b: seq<Span>)
    requires Ordered(text, starts)
    requires Settled(lang, text, starts, sources, a) && Settled(lang, text, starts, sources, b)
    ensures a == b
  {
    OnlyOneWay(lang, text, starts, sources, a, b, |a|);
    OnlyOneWay(lang, text, starts, sources, b, a, |b|);
    assert a[..|a|] == a && b[..|b|] == b;
  }

  lemma NextAgrees(lang: Lang, text: string, starts: seq<Start>, sources: seq<string>, a: seq<Span>, b: seq<Span>, n: nat)
    requires Ordered(text, starts) && n < |a| && n <= |b| && a[..n] == b[..n]
    requires Settled(lang, text, starts, sources, a) && Settled(lang, text, starts, sources, b)
    ensures n < |b| && a[n] == b[n]
  {
    HasSpan(lang, text, starts, sources, a, b, n);
    HasSpan(lang, text, starts, sources, b, a, n);
    SameSpan(lang, text, starts, sources, a[n], b[n]);
  }

  lemma SameSpan(lang: Lang, text: string, starts: seq<Start>, sources: seq<string>, s: Span, s': Span)
    requires Ordered(text, starts) && s.from == s'.from
    requires Proven(lang, text, starts, sources, s) && Proven(lang, text, starts, sources, s')
    ensures s == s'
  {
    SameStart(text, starts, Start(s.from, s.number), Start(s'.from, s'.number));
  }

  /** Where one list has its next span, the other has one that starts no later. */
  lemma HasSpan(lang: Lang, text: string, starts: seq<Start>, sources: seq<string>, a: seq<Span>, b: seq<Span>, n: nat)
    requires n < |a| && n <= |b| && a[..n] == b[..n] && Inside(text, a) && Inside(text, b)
    requires AllProven(lang, text, starts, sources, a) && Complete(lang, text, starts, sources, b)
    ensures n < |b| && b[n].from <= a[n].from
  {
    assert Proven(lang, text, starts, sources, a[n]);
    assert Cites(lang, text, Start(a[n].from, a[n].number), a[n].to - 1, sources);
    NotNothing(lang, text, Start(a[n].from, a[n].number), sources, a[n].to - 1);
    var i :| 0 <= i < |b| && b[i].from <= a[n].from < b[i].to;
    BehindCommon(a, b, n, i);
  }

  lemma NotNothing(lang: Lang, text: string, s: Start, sources: seq<string>, closing: nat)
    requires Cites(lang, text, s, closing, sources)
    ensures !CitesNothing(lang, text, s, sources)
  {
  }

  lemma BehindCommon(a: seq<Span>, b: seq<Span>, n: nat, i: nat)
    requires n < |a| && n <= |b| && a[..n] == b[..n] && Disjoint(a) && Disjoint(b) && i < |b|
    requires b[i].from <= a[n].from < b[i].to && (forall j :: 0 <= j < |b| ==> b[j].from < b[j].to)
    ensures n <= i && b[n].from <= a[n].from
  {
    forall j | 0 <= j < n ensures a[j] == b[j] { assert a[..n][j] == b[..n][j]; }
  }

  lemma SameStart(text: string, starts: seq<Start>, s: Start, s': Start)
    requires Ordered(text, starts) && s in starts && s' in starts && s.quote == s'.quote
    ensures s == s'
  {
    var i :| 0 <= i < |starts| && starts[i] == s;
    var j :| 0 <= j < |starts| && starts[j] == s';
    assert i == j;
  }
}
