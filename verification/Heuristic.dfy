/**
  The scorer that needs no model: it pairs every message of the customer with the
  replies it drew, scores it, and averages the scores over segments and overall.
  Scores are exact real numbers here.
*/
module Heuristic {
  import opened Common
  import opened Text

  const SHORT_WORDS := 3
  const GOOD_WORDS := 8
  const LOW_EFFORT := {"hey", "hi", "yo", "lol", "haha", "ok", "okay", "k", "nice", "cool", "hmm", "sup"}

  datatype Sender = Self | Match

  datatype Message = Message(position: nat, sender: Sender, body: string)

  datatype Outcome = NoReply | ShortReply | PlainReply | GoodReply

  datatype Review = Review(message: Message, reply: Option<Message>, outcome: Outcome, score: real)

  datatype Label = Engaging | Neutral | Flat

  datatype Segment = Segment(start: nat, end: nat, score: real, tag: Label)

  datatype Window = Window(start: nat, end: nat, messages: seq<Message>)

  /** What the open-question pattern finds is given, like white space and lower case. */
  datatype Lexicon = Lexicon(lang: Lang, openQuestion: string -> bool)

  // ---------------------------------------------------------------------------
  // One message
  // ---------------------------------------------------------------------------

  function Clamp(x: real): real {
    if x < 0.0 then 0.0 else if x > 1.0 then 1.0 else x
  }

  function LabelFor(score: real): Label {
    if score >= 0.66 then Engaging else if score >= 0.4 then Neutral else Flat
  }

  function WordCount(lex: Lexicon, m: Message): nat { |Words(lex.lang, m.body)| }

  predicate Trimmed(c: char) { c in "!?. " }

  predicate IsLowEffort(lex: Lexicon, m: Message) {
    Strip(Lang(Trimmed, lex.lang.lower), lex.lang.lower(m.body)) in LOW_EFFORT
  }

  predicate AsksBack(lex: Lexicon, body: string) {
    exists i | 0 <= i < |body| :: body[i] == '?' && (i + 1 == |body| || lex.lang.space(body[i + 1]))
  }

  function Classify(lex: Lexicon, reply: Option<Message>): Outcome {
    if reply.None? then NoReply
    else if IsLowEffort(lex, reply.value) || WordCount(lex, reply.value) <= SHORT_WORDS then ShortReply
    else if WordCount(lex, reply.value) >= GOOD_WORDS || AsksBack(lex, reply.value.body) then GoodReply
    else PlainReply
  }

  function OutcomeScore(o: Outcome): real {
    match o
    case NoReply => 0.15
    case ShortReply => 0.4
    case PlainReply => 0.6
    case GoodReply => 0.85
  }

  function Adjustment(lex: Lexicon, m: Message): real {
    var body := Strip(lex.lang, m.body);
    (if WordCount(lex, m) >= 8 then 0.05 else 0.0) +
    (if (body != "" && body[|body| - 1] == '?') || lex.openQuestion(body) then 0.05 else 0.0) -
    (if IsLowEffort(lex, m) then 0.1 else 0.0)
  }

  // ---------------------------------------------------------------------------
  // Order and reply runs
  // ---------------------------------------------------------------------------

  function Insert(m: Message, s: seq<Message>): seq<Message> {
    if s == [] || m.position <= s[0].position then [m] + s else [s[0]] + Insert(m, s[1..])
  }

  /** Python's sorted by position, which keeps the order of equal positions. */
  function InOrder(messages: seq<Message>): seq<Message> {
    if messages == [] then [] else Insert(messages[0], InOrder(messages[1..]))
  }

  predicate Ordered(s: seq<Message>) { forall i, j :: 0 <= i < j < |s| ==> s[i].position <= s[j].position }

  predicate Distinct(s: seq<Message>) { forall i, j :: 0 <= i < j < |s| ==> s[i].position != s[j].position }

  lemma {:induction false} InsertContents(m: Message, s: seq<Message>)
    ensures multiset(Insert(m, s)) == multiset(s) + multiset{m}
    ensures forall x :: x in Insert(m, s) <==> x == m || x in s
  {
    if s != [] {
      assert s == [s[0]] + s[1..];
      if m.position > s[0].position { InsertContents(m, s[1..]); }
    }
  }

  lemma {:induction false} InsertKeeps(m: Message, s: seq<Message>)
    requires Ordered(s)
    ensures Ordered(Insert(m, s))
  {
    if s != [] && m.position > s[0].position {
      var rest := Insert(m, s[1..]);
      InsertKeeps(m, s[1..]);
      InsertContents(m, s[1..]);
      forall j | 0 <= j < |rest| ensures s[0].position <= rest[j].position { assert rest[j] in rest; }
    }
  }

  lemma {:induction false} InOrderSorts(messages: seq<Message>)
    ensures Ordered(InOrder(messages)) && multiset(InOrder(messages)) == multiset(messages)
  {
    if messages != [] {
      InOrderSorts(messages[1..]);
      InsertKeeps(messages[0], InOrder(messages[1..]));
      InsertContents(messages[0], InOrder(messages[1..]));
      assert messages == [messages[0]] + messages[1..];
    }
  }

  lemma {:induction false} InsertKeepsDistinct(m: Message, s: seq<Message>)
    requires Ordered(s) && Distinct(s) && forall x :: x in s ==> x.position != m.position
    ensures Distinct(Insert(m, s))
  {
    if s != [] && m.position > s[0].position {
      var rest := Insert(m, s[1..]);
      InsertKeepsDistinct(m, s[1..]);
      InsertContents(m, s[1..]);
      forall j | 0 <= j < |rest| ensures s[0].position != rest[j].position { assert rest[j] in rest; }
    }
  }

  lemma {:induction false} InOrderKeepsDistinct(messages: seq<Message>)
    requires Distinct(messages)
    ensures Distinct(InOrder(messages))
  {
    if messages != [] {
      var rest := InOrder(messages[1..]);
      InOrderKeepsDistinct(messages[1..]);
      InOrderSorts(messages[1..]);
      forall x | x in rest ensures x.position != messages[0].position {
        assert x in multiset(rest);
        assert x in messages[1..];
      }
      InsertKeepsDistinct(messages[0], rest);
    }
  }

  /** The messages of the match from a place on, up to the customer's next one. */
  function RunFrom(ordered: seq<Message>, i: nat): (run: seq<Message>)
    requires i <= |ordered|
    ensures i + |run| <= |ordered| && run == ordered[i..i + |run|]
    decreases |ordered| - i
  {
    if i < |ordered| && ordered[i].sender == Match then [ordered[i]] + RunFrom(ordered, i + 1) else []
  }

  /** Every customer message from a place on, each followed by the run it drew. */
  function Evidence(ordered: seq<Message>, i: nat): seq<Message>
    requires i <= |ordered|
    decreases |ordered| - i
  {
    if i == |ordered| then []
    else (if ordered[i].sender == Self then [ordered[i]] + RunFrom(ordered, i + 1) else []) + Evidence(ordered, i + 1)
  }

  lemma {:induction false} EvidenceFrom(ordered: seq<Message>, i: nat)
    requires i <= |ordered|
    ensures RunFrom(ordered, i) + Evidence(ordered, i) == ordered[i..]
    decreases |ordered| - i
  {
    if i < |ordered| {
      EvidenceFrom(ordered, i + 1);
      assert ordered[i..] == [ordered[i]] + ordered[i + 1..];
    }
  }

  /** Nothing is lost and nothing counted twice: the opening run of the match and the evidence make up the conversation. */
  lemma EvidenceConserved(messages: seq<Message>)
    ensures var ordered := InOrder(messages);
            && RunFrom(ordered, 0) + Evidence(ordered, 0) == ordered
            && multiset(RunFrom(ordered, 0)) + multiset(Evidence(ordered, 0)) == multiset(messages)
  {
    var ordered := InOrder(messages);
    EvidenceFrom(ordered, 0);
    InOrderSorts(messages);
    assert ordered[0..] == ordered;
  }

  /** A match message lies in the run of exactly one customer message, if one came before it. */
  lemma {:induction false} InOneRun(ordered: seq<Message>, first: nat, k: nat) returns (i: nat)
    requires first < k < |ordered| && ordered[first].sender == Self && ordered[k].sender == Match
    ensures first <= i < |ordered| && InRunOf(ordered, i, k)
    ensures forall j :: 0 <= j < |ordered| && InRunOf(ordered, j, k) ==> j == i
  {
    i := LastSelfBefore(ordered, first, k);
    RunReaches(ordered, i + 1, k);
    forall j | 0 <= j < |ordered| && InRunOf(ordered, j, k) ensures j == i {
      RunIsMatch(ordered, j + 1);
    }
  }

  lemma {:induction false} LastSelfBefore(ordered: seq<Message>, first: nat, k: nat) returns (i: nat)
    requires first < k < |ordered| && ordered[first].sender == Self && ordered[k].sender == Match
    ensures first <= i < k && ordered[i].sender == Self && forall j :: i < j <= k ==> ordered[j].sender == Match
    decreases k - first
  {
    if next :| first < next < k && ordered[next].sender == Self {
      i := LastSelfBefore(ordered, next, k);
    } else {
      i := first;
    }
  }

  predicate InRunOf(ordered: seq<Message>, i: nat, k: nat)
    requires i < |ordered|
  {
    ordered[i].sender == Self && i < k <= i + |RunFrom(ordered, i + 1)|
  }

  lemma {:induction false} RunReaches(ordered: seq<Message>, i: nat, k: nat)
    requires i <= k < |ordered| && forall j :: i <= j <= k ==> ordered[j].sender == Match
    ensures k < i + |RunFrom(ordered, i)|
    decreases k - i
  {
    if i < k { RunReaches(ordered, i + 1, k); }
  }

  lemma {:induction false} RunIsMatch(ordered: seq<Message>, i: nat)
    requires i <= |ordered|
    ensures forall p :: i <= p < i + |RunFrom(ordered, i)| ==> ordered[p].sender == Match
    decreases |ordered| - i
  {
    if i < |ordered| { RunIsMatch(ordered, i + 1); }
  }

  // ---------------------------------------------------------------------------
  // Merging a reply
  // ---------------------------------------------------------------------------

  function Bodies(lex: Lexicon, bubbles: seq<Message>): seq<string> {
    seq(|bubbles|, i requires 0 <= i < |bubbles| => Strip(lex.lang, bubbles[i].body))
  }

  function Merged(lex: Lexicon, bubbles: seq<Message>): Option<Message> {
    if bubbles == [] then None
    else if |bubbles| == 1 then Some(bubbles[0])
    else Some(bubbles[0].(body := Join(Bodies(lex, bubbles))))
  }

  function WordTotal(lex: Lexicon, bubbles: seq<Message>): nat {
    if bubbles == [] then 0 else WordCount(lex, bubbles[0]) + WordTotal(lex, bubbles[1..])
  }

  lemma {:induction false} JoinedWords(lex: Lexicon, bubbles: seq<Message>)
    requires lex.lang.space(' ')
    ensures |Words(lex.lang, Join(Bodies(lex, bubbles)))| == WordTotal(lex, bubbles)
  {
    if bubbles != [] {
      StripKeepsWords(lex.lang, bubbles[0].body);
      var rest := Bodies(lex, bubbles[1..]);
      assert Bodies(lex, bubbles) == [Strip(lex.lang, bubbles[0].body)] + rest;
      if |bubbles| > 1 {
        JoinedWords(lex, bubbles[1..]);
        WordsAcross(lex.lang, Strip(lex.lang, bubbles[0].body), ' ', Join(rest));
        assert [' '] == " ";
      }
    }
  }

  /** The merged reply has the words of all its bubbles, so a long answer is judged whole. */
  lemma MergedHasAllWords(lex: Lexicon, bubbles: seq<Message>)
    requires lex.lang.space(' ') && bubbles != []
    ensures Merged(lex, bubbles).Some? && WordCount(lex, Merged(lex, bubbles).value) == WordTotal(lex, bubbles)
    ensures Merged(lex, bubbles).value.position == bubbles[0].position
  {
    JoinedWords(lex, bubbles);
  }

  // ---------------------------------------------------------------------------
  // Reviews
  // ---------------------------------------------------------------------------

  function ReviewOf(lex: Lexicon, ordered: seq<Message>, i: nat): Review
    requires i < |ordered|
  {
    var reply := Merged(lex, RunFrom(ordered, i + 1));
    var outcome := Classify(lex, reply);
    Review(ordered[i], reply, outcome, Clamp(OutcomeScore(outcome) + Adjustment(lex, ordered[i])))
  }

  /** The reviews of the customer messages at places from a up to b. */
  function ReviewsBetween(lex: Lexicon, ordered: seq<Message>, a: nat, b: nat): seq<Review>
    requires a <= b <= |ordered|
  {
    if a == b then []
    else ReviewsBetween(lex, ordered, a, b - 1) + if ordered[b - 1].sender == Self then [ReviewOf(lex, ordered, b - 1)] else []
  }

  function AllReviews(lex: Lexicon, messages: seq<Message>): seq<Review> {
    ReviewsBetween(lex, InOrder(messages), 0, |InOrder(messages)|)
  }

  /** The score a review gets before it is clamped is well inside the range. */
  lemma ReviewClampIsNoOp(lex: Lexicon, ordered: seq<Message>, i: nat)
    requires i < |ordered|
    ensures var r := ReviewOf(lex, ordered, i);
            r.score == OutcomeScore(r.outcome) + Adjustment(lex, ordered[i]) && 0.05 <= r.score <= 0.95
  {
  }

  /** The inner loop: the bubbles that answer the message before `from`. */
  method Bubbles(ordered: seq<Message>, from: nat) returns (bubbles: seq<Message>)
    requires from <= |ordered|
    ensures bubbles == RunFrom(ordered, from)
  {
    bubbles := [];
    var next := from;
    while next < |ordered| && ordered[next].sender == Match
      invariant from <= next <= |ordered| && bubbles + RunFrom(ordered, next) == RunFrom(ordered, from)
    {
      bubbles := bubbles + [ordered[next]];
      next := next + 1;
    }
  }

  function Own(messages: seq<Message>): seq<Message> {
    if messages == [] then [] else (if messages[0].sender == Self then [messages[0]] else []) + Own(messages[1..])
  }

  lemma {:induction false} OwnAppend(messages: seq<Message>, m: Message)
    ensures Own(messages + [m]) == Own(messages) + if m.sender == Self then [m] else []
  {
    if messages == [] {
      assert messages + [m] == [m];
    } else {
      assert (messages + [m])[1..] == messages[1..] + [m];
      OwnAppend(messages[1..], m);
      var head := if messages[0].sender == Self then [messages[0]] else [];
      assert Own(messages + [m]) == head + (Own(messages[1..]) + if m.sender == Self then [m] else []);
    }
  }

  function MessagesOf(reviews: seq<Review>): seq<Message> {
    seq(|reviews|, k requires 0 <= k < |reviews| => reviews[k].message)
  }

  /** Every message of the customer is reviewed once, in order, by the run that follows it, and no other is. */
  lemma {:induction false} EveryOwnMessageReviewed(lex: Lexicon, ordered: seq<Message>, b: nat)
    requires b <= |ordered|
    ensures var reviews := ReviewsBetween(lex, ordered, 0, b);
            && MessagesOf(reviews) == Own(ordered[..b])
            && forall r :: r in reviews ==>
                 exists i :: 0 <= i < b && r.message == ordered[i] && r.reply == Merged(lex, RunFrom(ordered, i + 1))
  {
    if b > 0 {
      EveryOwnMessageReviewed(lex, ordered, b - 1);
      OwnAppend(ordered[..b - 1], ordered[b - 1]);
      assert ordered[..b] == ordered[..b - 1] + [ordered[b - 1]];
      var before := ReviewsBetween(lex, ordered, 0, b - 1);
      forall r | r in ReviewsBetween(lex, ordered, 0, b)
        ensures exists i :: 0 <= i < b && r.message == ordered[i] && r.reply == Merged(lex, RunFrom(ordered, i + 1))
      {
        if r in before {
          var i :| 0 <= i < b - 1 && r.message == ordered[i] && r.reply == Merged(lex, RunFrom(ordered, i + 1));
        } else {
          assert r == ReviewOf(lex, ordered, b - 1);
        }
      }
    }
  }

  /** Next to nothing, whatever its length: one of the fillers, in any case and with any of !?. around it. */
  predicate Filler(lex: Lexicon, m: Message) {
    Strip(Lang(c => c == '!' || c == '?' || c == '.' || c == ' ', lex.lang.lower), lex.lang.lower(m.body)) in
      {"hey", "hi", "yo", "lol", "haha", "ok", "okay", "k", "nice", "cool", "hmm", "sup"}
  }

  /** A question mark ends a sentence. */
  predicate Asks(lex: Lexicon, body: string) {
    exists i | 0 <= i < |body| :: body[i] == '?' && (i == |body| - 1 || lex.lang.space(body[i + 1]))
  }

  predicate Short(lex: Lexicon, m: Message) { Filler(lex, m) || |Words(lex.lang, m.body)| <= 3 }

  predicate Full(lex: Lexicon, m: Message) { !Short(lex, m) && (|Words(lex.lang, m.body)| >= 8 || Asks(lex, m.body)) }

  /**
    The score of a message with its reply, by words and question marks: 0.15 without a
    reply, 0.4 for a short one, 0.85 for a full one and 0.6 for any other; and on top,
    for the message, 0.05 for eight words, 0.05 for a question, less 0.1 for a filler.
  */
  predicate ScoredBy(lex: Lexicon, m: Message, reply: Option<Message>, score: real) {
    var own := Strip(lex.lang, m.body);
    score == (if reply.None? then 0.15 else if Short(lex, reply.value) then 0.4 else if Full(lex, reply.value) then 0.85 else 0.6)
             + (if |Words(lex.lang, m.body)| >= 8 then 0.05 else 0.0)
             + (if (own != "" && own[|own| - 1] == '?') || lex.openQuestion(own) then 0.05 else 0.0)
             - (if Filler(lex, m) then 0.1 else 0.0)
  }

  lemma ScoreExactly(lex: Lexicon, ordered: seq<Message>, i: nat)
    requires i < |ordered|
    ensures var r := ReviewOf(lex, ordered, i);
            && (r.reply.None? <==> i + 1 == |ordered| || ordered[i + 1].sender == Self)
            && ScoredBy(lex, ordered[i], r.reply, r.score)
  {
    var r := ReviewOf(lex, ordered, i);
    ReviewClampIsNoOp(lex, ordered, i);
    FillerIsLowEffort(lex, ordered[i]);
    if r.reply.Some? { FillerIsLowEffort(lex, r.reply.value); }
  }

  lemma {:induction false} AllScored(lex: Lexicon, ordered: seq<Message>, b: nat)
    requires b <= |ordered|
    ensures forall r :: r in ReviewsBetween(lex, ordered, 0, b) ==> ScoredBy(lex, r.message, r.reply, r.score)
  {
    if b > 0 {
      AllScored(lex, ordered, b - 1);
      ScoreExactly(lex, ordered, b - 1);
    }
  }

  lemma FillerIsLowEffort(lex: Lexicon, m: Message)
    ensures Filler(lex, m) <==> IsLowEffort(lex, m)
  {
    var trim: char -> bool := c => c == '!' || c == '?' || c == '.' || c == ' ';
    SameStrip(Lang(trim, lex.lang.lower), Lang(Trimmed, lex.lang.lower), lex.lang.lower(m.body));
  }

  /** For one and the same message, the better the reply the higher the score. */
  lemma BetterRepliesScoreHigher(lex: Lexicon, a: seq<Message>, i: nat, b: seq<Message>, j: nat)
    requires i < |a| && j < |b| && a[i] == b[j]
    ensures var r, r' := ReviewOf(lex, a, i), ReviewOf(lex, b, j);
            && (r.reply.None? && r'.reply.Some? && Short(lex, r'.reply.value) ==> r'.score - r.score == 0.25)
            && (r.reply.Some? && Short(lex, r.reply.value) && r'.reply.Some? && !Short(lex, r'.reply.value) &&
                !Full(lex, r'.reply.value) ==>
                  r'.score - r.score == 0.2)
            && (r.reply.Some? && !Short(lex, r.reply.value) && !Full(lex, r.reply.value) && r'.reply.Some? && Full(lex, r'.reply.value) ==>
                  r'.score - r.score == 0.25)
  {
    ScoreExactly(lex, a, i);
    ScoreExactly(lex, b, j);
  }

  /** A question in any bubble is one in the merged reply. */
  lemma {:induction false} JoinedAsks(lex: Lexicon, bubbles: seq<Message>, k: nat)
    requires k < |bubbles| && Asks(lex, bubbles[k].body) && lex.lang.space(' ') && !lex.lang.space('?')
    ensures Asks(lex, Join(Bodies(lex, bubbles)))
  {
    var first := Strip(lex.lang, bubbles[0].body);
    var rest := Bodies(lex, bubbles[1..]);
    assert Bodies(lex, bubbles) == [first] + rest;
    if k == 0 {
      StripAsks(lex, bubbles[0].body);
      if |bubbles| > 1 { AsksBefore(lex, first, " " + Join(rest)); }
      assert |bubbles| > 1 ==> first + " " + Join(rest) == first + (" " + Join(rest));
    } else {
      JoinedAsks(lex, bubbles[1..], k - 1);
      AsksBehind(lex, first + " ", Join(rest));
    }
  }

  lemma MergedAsks(lex: Lexicon, bubbles: seq<Message>, k: nat)
    requires k < |bubbles| && Asks(lex, bubbles[k].body) && lex.lang.space(' ') && !lex.lang.space('?')
    ensures Merged(lex, bubbles).Some? && Asks(lex, Merged(lex, bubbles).value.body)
  {
    JoinedAsks(lex, bubbles, k);
  }

  lemma AsksBefore(lex: Lexicon, a: string, b: string)
    requires Asks(lex, a) && (b == "" || lex.lang.space(b[0]))
    ensures Asks(lex, a + b)
  {
    var i :| 0 <= i < |a| && a[i] == '?' && (i == |a| - 1 || lex.lang.space(a[i + 1]));
    assert (a + b)[i] == '?' && (i == |a + b| - 1 || lex.lang.space((a + b)[i + 1]));
  }

  lemma AsksBehind(lex: Lexicon, a: string, b: string)
    requires Asks(lex, b)
    ensures Asks(lex, a + b)
  {
    var i :| 0 <= i < |b| && b[i] == '?' && (i == |b| - 1 || lex.lang.space(b[i + 1]));
    assert (a + b)[|a| + i] == '?' && (|a| + i == |a + b| - 1 || lex.lang.space((a + b)[|a| + i + 1]));
  }

  lemma StripAsks(lex: Lexicon, body: string)
    requires Asks(lex, body) && !lex.lang.space('?')
    ensures Asks(lex, Strip(lex.lang, body))
  {
    StripLeftAsks(lex, body);
    StripRightAsks(lex, StripLeft(lex.lang, body));
  }

  lemma {:induction false} StripLeftAsks(lex: Lexicon, body: string)
    requires Asks(lex, body) && !lex.lang.space('?')
    ensures Asks(lex, StripLeft(lex.lang, body))
  {
    if lex.lang.space(body[0]) {
      var i :| 0 <= i < |body| && body[i] == '?' && (i == |body| - 1 || lex.lang.space(body[i + 1]));
      assert body[1..][i - 1] == '?';
      assert Asks(lex, body[1..]);
      StripLeftAsks(lex, body[1..]);
    }
  }

  lemma {:induction false} StripRightAsks(lex: Lexicon, body: string)
    requires Asks(lex, body) && !lex.lang.space('?')
    ensures Asks(lex, StripRight(lex.lang, body))
  {
    var n := |body| - 1;
    if lex.lang.space(body[n]) {
      var i :| 0 <= i < |body| && body[i] == '?' && (i == |body| - 1 || lex.lang.space(body[i + 1]));
      assert body[..n][i] == '?' && (i == n - 1 || body[..n][i + 1] == body[i + 1]);
      StripRightAsks(lex, body[..n]);
    }
  }

  method ReviewSelfMessages(lex: Lexicon, messages: seq<Message>) returns (reviews: seq<Review>)
    ensures reviews == AllReviews(lex, messages)
    ensures MessagesOf(reviews) == Own(InOrder(messages))
    ensures forall r :: r in reviews ==> ScoredBy(lex, r.message, r.reply, r.score)
  {
    var ordered := InOrder(messages);
    reviews := [];
    for index := 0 to |ordered|
      invariant reviews == ReviewsBetween(lex, ordered, 0, index)
    {
      if ordered[index].sender == Self {
        var bubbles := Bubbles(ordered, index + 1);
        var reply := Merged(lex, bubbles);
        var outcome := Classify(lex, reply);
        var review := Review(ordered[index], reply, outcome, Clamp(OutcomeScore(outcome) + Adjustment(lex, ordered[index])));
        assert review == ReviewOf(lex, ordered, index);
        reviews := reviews + [review];
      }
    }
    EveryOwnMessageReviewed(lex, ordered, |ordered|);
    AllScored(lex, ordered, |ordered|);
    assert ordered[..|ordered|] == ordered;
  }

  // ---------------------------------------------------------------------------
  // Segments
  // ---------------------------------------------------------------------------

  function Flatten(windows: seq<Window>): seq<Message> {
    if windows == [] then [] else Flatten(windows[..|windows| - 1]) + windows[|windows| - 1].messages
  }

  /** A window is a non-empty piece of at most `size` messages, named by its first and last position. */
  predicate WindowOk(w: Window, size: nat) {
    0 < |w.messages| <= size && w.start == w.messages[0].position && w.end == w.messages[|w.messages| - 1].position
  }

  /** Windows over the first `end` messages; all but the last are full. */
  ghost predicate Chunked(ordered: seq<Message>, windows: seq<Window>, end: nat, width: nat) {
    && end <= |ordered| && Flatten(windows) == ordered[..end]
    && (forall i :: 0 <= i < |windows| ==> WindowOk(windows[i], width))
    && (forall i :: 0 <= i < |windows| - 1 ==> |windows[i].messages| == width)
    && (windows != [] && end < |ordered| ==> |windows[|windows| - 1].messages| == width)
  }

  lemma AddWindow(ordered: seq<Message>, windows: seq<Window>, end: nat, width: nat, w: Window, end': nat)
    requires Chunked(ordered, windows, end, width) && end < end' <= |ordered| && WindowOk(w, width)
    requires w.messages == ordered[end..end'] && (end' < |ordered| ==> end' == end + width)
    ensures Chunked(ordered, windows + [w], end', width)
  {
    assert (windows + [w])[..|windows|] == windows;
    assert ordered[..end'] == ordered[..end] + ordered[end..end'];
  }

  lemma AllWindows(ordered: seq<Message>, windows: seq<Window>, width: nat)
    requires Chunked(ordered, windows, |ordered|, width)
    ensures Flatten(windows) == ordered
  {
    assert ordered[..|ordered|] == ordered;
  }

  method Chunk(messages: seq<Message>, size: int) returns (windows: seq<Window>)
    ensures Chunked(InOrder(messages), windows, |InOrder(messages)|, if size > 1 then size else 1)
    ensures Flatten(windows) == InOrder(messages)
  {
    var ordered, width := InOrder(messages), if size > 1 then size else 1;
    windows := [];
    var start, end := 0, 0;
    while start < |ordered|
      invariant 0 <= start && end == (if start < |ordered| then start else |ordered|)
      invariant Chunked(ordered, windows, end, width)
      decreases |ordered| - start
    {
      end := if start + width < |ordered| then start + width else |ordered|;
      var piece := ordered[start..end];
      var window := Window(piece[0].position, piece[|piece| - 1].position, piece);
      AddWindow(ordered, windows, start, width, window, end);
      windows := windows + [window];
      start := start + width;
    }
    AllWindows(ordered, windows, width);
  }

  function Total(reviews: seq<Review>): real {
    if reviews == [] then 0.0 else Total(reviews[..|reviews| - 1]) + reviews[|reviews| - 1].score
  }

  /** The mean score, or one half where there is nothing to average. */
  function Mean(reviews: seq<Review>): real {
    if reviews == [] then 0.5 else Clamp(Total(reviews) / |reviews| as real)
  }

  function ByPosition(reviews: seq<Review>): map<nat, Review> {
    if reviews == [] then map[]
    else ByPosition(reviews[..|reviews| - 1])[reviews[|reviews| - 1].message.position := reviews[|reviews| - 1]]
  }

  function WindowReviews(byPosition: map<nat, Review>, messages: seq<Message>): seq<Review> {
    if messages == [] then []
    else
      var last := messages[|messages| - 1];
      WindowReviews(byPosition, messages[..|messages| - 1]) +
      if last.position in byPosition then [byPosition[last.position]] else []
  }

  method IndexReviews(reviews: seq<Review>) returns (byPosition: map<nat, Review>)
    ensures byPosition == ByPosition(reviews)
  {
    byPosition := map[];
    for i := 0 to |reviews|
      invariant byPosition == ByPosition(reviews[..i])
    {
      assert reviews[..i + 1][..i] == reviews[..i];
      byPosition := byPosition[reviews[i].message.position := reviews[i]];
    }
    assert reviews[..|reviews|] == reviews;
  }

  method ReviewsOfWindow(byPosition: map<nat, Review>, messages: seq<Message>) returns (found: seq<Review>)
    ensures found == WindowReviews(byPosition, messages)
  {
    found := [];
    for i := 0 to |messages|
      invariant found == WindowReviews(byPosition, messages[..i])
    {
      assert messages[..i + 1][..i] == messages[..i];
      if messages[i].position in byPosition { found := found + [byPosition[messages[i].position]]; }
    }
    assert messages[..|messages|] == messages;
  }

  /** A segment reports its window's positions and the mean of its reviews. */
  predicate Reports(s: Segment, w: Window, byPosition: map<nat, Review>) {
    && s.start == w.start && s.end == w.end
    && (var found := WindowReviews(byPosition, w.messages);
        if found == [] then s.score == 0.5 else s.score == Mean(found))
    && s.tag == if s.score >= 0.66 then Engaging else if s.score >= 0.4 then Neutral else Flat
  }

  /** The loop over the windows. */
  method Segments(pieces: seq<Window>, byPosition: map<nat, Review>) returns (segments: seq<Segment>)
    ensures |segments| == |pieces| && forall i :: 0 <= i < |pieces| ==> Reports(segments[i], pieces[i], byPosition)
  {
    segments := [];
    for k := 0 to |pieces|
      invariant |segments| == k && forall i :: 0 <= i < k ==> Reports(segments[i], pieces[i], byPosition)
    {
      var found := ReviewsOfWindow(byPosition, pieces[k].messages);
      var score := Mean(found);
      segments := segments + [Segment(pieces[k].start, pieces[k].end, score, LabelFor(score))];
    }
  }

  method Analyze(lex: Lexicon, messages: seq<Message>, size: int)
    returns (segments: seq<Segment>, overall: real, ghost windows: seq<Window>)
    ensures Flatten(windows) == InOrder(messages) && |segments| == |windows|
    ensures overall == Mean(AllReviews(lex, messages)) && (AllReviews(lex, messages) == [] ==> overall == 0.5)
    ensures forall i :: 0 <= i < |segments| ==> Reports(segments[i], windows[i], ByPosition(AllReviews(lex, messages)))
  {
    var reviews := ReviewSelfMessages(lex, messages);
    var byPosition := IndexReviews(reviews);
    var pieces := Chunk(messages, size);
    windows := pieces;
    segments := Segments(pieces, byPosition);
    overall := Mean(reviews);
    segments := AlignSegments(segments);
  }

  /** Normalising a score that is in range, with its own label, changes nothing. */
  method AlignSegments(segments: seq<Segment>) returns (aligned: seq<Segment>)
    ensures |aligned| == |segments|
    ensures forall i :: 0 <= i < |segments| ==>
              aligned[i] == segments[i].(score := Clamp(segments[i].score), tag := LabelFor(Clamp(segments[i].score)))
  {
    aligned := segments;
    for i := 0 to |segments|
      invariant |aligned| == |segments|
      invariant forall j :: 0 <= j < i ==>
                  aligned[j] == segments[j].(score := Clamp(segments[j].score), tag := LabelFor(Clamp(segments[j].score)))
      invariant forall j :: i <= j < |segments| ==> aligned[j] == segments[j]
    {
      var score := Clamp(aligned[i].score);
      aligned := aligned[i := aligned[i].(score := score, tag := LabelFor(score))];
    }
  }

  // ---------------------------------------------------------------------------
  // Averages
  // ---------------------------------------------------------------------------

  lemma {:induction false} TotalBounds(reviews: seq<Review>)
    requires forall r :: r in reviews ==> 0.05 <= r.score <= 0.95
    ensures 0.05 * |reviews| as real <= Total(reviews) <= 0.95 * |reviews| as real
  {
    if reviews != [] {
      TotalBounds(reviews[..|reviews| - 1]);
      assert reviews[|reviews| - 1] in reviews;
    }
  }

  /** The mean of scores in range is in range, so clamping it does nothing. */
  lemma MeanClampIsNoOp(reviews: seq<Review>)
    requires reviews != [] && forall r :: r in reviews ==> 0.05 <= r.score <= 0.95
    ensures Mean(reviews) == Total(reviews) / |reviews| as real && 0.05 <= Mean(reviews) <= 0.95
    ensures |reviews| as real * Mean(reviews) == Total(reviews)
  {
    TotalBounds(reviews);
    DivideBounds(Total(reviews), |reviews| as real);
  }

  lemma DivideBounds(total: real, n: real)
    requires n > 0.0 && 0.05 * n <= total <= 0.95 * n
    ensures 0.05 <= total / n <= 0.95 && n * (total / n) == total
  {
    var q := total / n;
    assert q * n == total;
    TimesGrows(q, 0.05, n);
    TimesGrows(0.95, q, n);
  }

  lemma TimesGrows(a: real, b: real, n: real)
    requires n > 0.0
    ensures a < b ==> a * n < b * n
  {
  }

  lemma {:induction false} ReviewsInRange(lex: Lexicon, ordered: seq<Message>, a: nat, b: nat)
    requires a <= b <= |ordered|
    ensures forall r :: r in ReviewsBetween(lex, ordered, a, b) ==> 0.05 <= r.score <= 0.95
  {
    if a < b {
      ReviewsInRange(lex, ordered, a, b - 1);
      ReviewClampIsNoOp(lex, ordered, b - 1);
    }
  }

  lemma OneMoreByPosition(lex: Lexicon, ordered: seq<Message>, b: nat)
    requires b < |ordered|
    ensures var m := ByPosition(ReviewsBetween(lex, ordered, 0, b));
            ByPosition(ReviewsBetween(lex, ordered, 0, b + 1)) ==
            if ordered[b].sender == Self then m[ordered[b].position := ReviewOf(lex, ordered, b)] else m
  {
    var before := ReviewsBetween(lex, ordered, 0, b);
    assert (before + [ReviewOf(lex, ordered, b)])[..|before|] == before;
    assert before + [] == before;
  }

  /** With distinct positions, looking a message up by its position finds its own review, and only customer messages have one. */
  lemma {:induction false} LookUp(lex: Lexicon, ordered: seq<Message>, b: nat, i: nat)
    requires b <= |ordered| && i < |ordered| && Distinct(ordered)
    ensures var m := ByPosition(ReviewsBetween(lex, ordered, 0, b));
            && (ordered[i].position in m <==> i < b && ordered[i].sender == Self)
            && (ordered[i].position in m ==> m[ordered[i].position] == ReviewOf(lex, ordered, i))
  {
    if b > 0 {
      LookUp(lex, ordered, b - 1, i);
      OneMoreByPosition(lex, ordered, b - 1);
      assert i < b - 1 ==> ordered[i].position != ordered[b - 1].position;
      assert b - 1 < i ==> ordered[b - 1].position != ordered[i].position;
    }
  }

  lemma {:induction false} WindowHasItsReviews(lex: Lexicon, ordered: seq<Message>, a: nat, b: nat)
    requires a <= b <= |ordered| && Distinct(ordered)
    ensures WindowReviews(ByPosition(ReviewsBetween(lex, ordered, 0, |ordered|)), ordered[a..b]) == ReviewsBetween(lex, ordered, a, b)
    decreases b
  {
    if a < b {
      WindowHasItsReviews(lex, ordered, a, b - 1);
      assert ordered[a..b][..b - 1 - a] == ordered[a..b - 1];
      LookUp(lex, ordered, |ordered|, b - 1);
    }
  }

  lemma {:induction false} ReviewsConcat(lex: Lexicon, ordered: seq<Message>, a: nat, b: nat, c: nat)
    requires a <= b <= c <= |ordered|
    ensures ReviewsBetween(lex, ordered, a, c) == ReviewsBetween(lex, ordered, a, b) + ReviewsBetween(lex, ordered, b, c)
    decreases c
  {
    if b < c { ReviewsConcat(lex, ordered, a, b, c - 1); }
  }

  lemma {:induction false} TotalConcat(a: seq<Review>, b: seq<Review>)
    ensures Total(a + b) == Total(a) + Total(b)
  {
    if b == [] {
      assert a + b == a;
    } else {
      TotalConcat(a, b[..|b| - 1]);
      assert (a + b)[..|a + b| - 1] == a + b[..|b| - 1];
    }
  }

  /** What a score counts for in a weighted average: the mean times the number averaged. */
  function Weight(reviews: seq<Review>): real { |reviews| as real * Mean(reviews) }

  lemma WeightIsTotal(lex: Lexicon, ordered: seq<Message>, a: nat, b: nat)
    requires a <= b <= |ordered|
    ensures Weight(ReviewsBetween(lex, ordered, a, b)) == Total(ReviewsBetween(lex, ordered, a, b))
  {
    ReviewsInRange(lex, ordered, a, b);
    WeightOf(ReviewsBetween(lex, ordered, a, b));
  }

  lemma WeightOf(reviews: seq<Review>)
    requires forall r :: r in reviews ==> 0.05 <= r.score <= 0.95
    ensures Weight(reviews) == Total(reviews)
  {
    if reviews != [] { MeanClampIsNoOp(reviews); }
  }

  /** The segment scores weighted by the customer messages of their windows, summed up. */
  function Weighted(byPosition: map<nat, Review>, windows: seq<Window>): real {
    if windows == [] then 0.0
    else
      Weighted(byPosition, windows[..|windows| - 1]) + Weight(WindowReviews(byPosition, windows[|windows| - 1].messages))
  }

  lemma {:induction false} WeightedIsTotal(lex: Lexicon, ordered: seq<Message>, windows: seq<Window>, end: nat)
    requires Distinct(ordered) && end <= |ordered| && Flatten(windows) == ordered[..end]
    ensures Weighted(ByPosition(ReviewsBetween(lex, ordered, 0, |ordered|)), windows) == Total(ReviewsBetween(lex, ordered, 0, end))
  {
    if windows != [] {
      var n := |windows| - 1;
      var a := |Flatten(windows[..n])|;
      SplitFlat(ordered, windows, end);
      WeightedIsTotal(lex, ordered, windows[..n], a);
      WindowHasItsReviews(lex, ordered, a, end);
      WeightIsTotal(lex, ordered, a, end);
      ReviewsConcat(lex, ordered, 0, a, end);
      TotalConcat(ReviewsBetween(lex, ordered, 0, a), ReviewsBetween(lex, ordered, a, end));
    }
  }

  lemma SplitFlat(ordered: seq<Message>, windows: seq<Window>, end: nat)
    requires end <= |ordered| && windows != [] && Flatten(windows) == ordered[..end]
    ensures var n := |windows| - 1;
            var a := |Flatten(windows[..n])|;
            a <= end && Flatten(windows[..n]) == ordered[..a] && windows[n].messages == ordered[a..end]
  {
    var n := |windows| - 1;
    Halves(Flatten(windows[..n]), windows[n].messages, ordered, end);
  }

  lemma Halves<T>(front: seq<T>, last: seq<T>, whole: seq<T>, end: nat)
    requires end <= |whole| && front + last == whole[..end]
    ensures |front| <= end && front == whole[..|front|] && last == whole[|front|..end]
  {
    assert (front + last)[..|front|] == front && (front + last)[|front|..] == last;
    assert |front| <= end;
    assert whole[..end][..|front|] == whole[..|front|] && whole[..end][|front|..] == whole[|front|..end];
  }

  /** The overall score is the average of the segment scores, weighted by the customer's messages in each. */
  lemma OverallIsWeightedAverage(lex: Lexicon, messages: seq<Message>, windows: seq<Window>)
    requires Distinct(messages) && Flatten(windows) == InOrder(messages)
    ensures Weight(AllReviews(lex, messages)) == Weighted(ByPosition(AllReviews(lex, messages)), windows)
  {
    var ordered := InOrder(messages);
    InOrderKeepsDistinct(messages);
    assert ordered[..|ordered|] == ordered;
    WeightedIsTotal(lex, ordered, windows, |ordered|);
    WeightIsTotal(lex, ordered, 0, |ordered|);
  }
}
