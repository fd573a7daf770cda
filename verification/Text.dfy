/** Words of a text, as Python's str.split and str.strip see them. */
module Text {
  /** What white space and lower case are is given. */
  datatype Lang = Lang(space: char -> bool, lower: string -> string)

  /** The maximal runs without white space. */
  function Words(lang: Lang, text: string): (words: seq<string>)
    ensures text != "" && !lang.space(text[0]) ==> words != []
  {
    if text == "" then []
    else
      var rest := Words(lang, text[1..]);
      if lang.space(text[0]) then rest
      else if |text| == 1 || lang.space(text[1]) then [[text[0]]] + rest
      else [[text[0]] + rest[0]] + rest[1..]
  }

  function Join(words: seq<string>): string {
    if words == [] then ""
    else if |words| == 1 then words[0]
    else words[0] + " " + Join(words[1..])
  }

  predicate Spaceless(lang: Lang, word: string) {
    word != "" && forall i :: 0 <= i < |word| ==> !lang.space(word[i])
  }

  lemma {:induction false} WordsAreSpaceless(lang: Lang, text: string)
    ensures forall w :: w in Words(lang, text) ==> Spaceless(lang, w)
  {
    if text != "" {
      WordsAreSpaceless(lang, text[1..]);
      var rest := Words(lang, text[1..]);
      if !lang.space(text[0]) && |text| > 1 && !lang.space(text[1]) {
        assert Spaceless(lang, rest[0]) && Spaceless(lang, [text[0]] + rest[0]);
      } else {
        assert !lang.space(text[0]) ==> Spaceless(lang, [text[0]]);
      }
    }
  }

  lemma {:induction false} OneWord(lang: Lang, word: string)
    requires Spaceless(lang, word)
    ensures Words(lang, word) == [word]
  {
    assert [word[0]] + word[1..] == word;
    if |word| > 1 {
      assert !lang.space(word[1]) && Spaceless(lang, word[1..]);
      OneWord(lang, word[1..]);
    } else {
      assert word == [word[0]];
    }
  }

  /** A space separates words. */
  lemma {:induction false} WordsAcross(lang: Lang, a: string, sep: char, b: string)
    requires lang.space(sep)
    ensures Words(lang, a + [sep] + b) == Words(lang, a) + Words(lang, b)
  {
    var text := a + [sep] + b;
    if a == "" {
      assert text[1..] == b;
    } else {
      assert text[1..] == a[1..] + [sep] + b;
      WordsAcross(lang, a[1..], sep, b);
    }
  }

  /** Splitting what was joined gives the words back. */
  lemma {:induction false} SplitJoined(lang: Lang, words: seq<string>)
    requires lang.space(' ') && forall w :: w in words ==> Spaceless(lang, w)
    ensures Words(lang, Join(words)) == words
  {
    if words != [] {
      OneWord(lang, words[0]);
      if |words| > 1 {
        SplitJoined(lang, words[1..]);
        WordsAcross(lang, words[0], ' ', Join(words[1..]));
      }
    }
  }

  function StripLeft(lang: Lang, text: string): string {
    if text != "" && lang.space(text[0]) then StripLeft(lang, text[1..]) else text
  }

  function StripRight(lang: Lang, text: string): string {
    if text != "" && lang.space(text[|text| - 1]) then StripRight(lang, text[..|text| - 1]) else text
  }

  function Strip(lang: Lang, text: string): string { StripRight(lang, StripLeft(lang, text)) }

  lemma {:induction false} StripLeftKeepsWords(lang: Lang, text: string)
    ensures Words(lang, StripLeft(lang, text)) == Words(lang, text)
  {
    if text != "" && lang.space(text[0]) { StripLeftKeepsWords(lang, text[1..]); }
  }

  lemma {:induction false} StripRightKeepsWords(lang: Lang, text: string)
    ensures Words(lang, StripRight(lang, text)) == Words(lang, text)
  {
    if text != "" && lang.space(text[|text| - 1]) {
      var n := |text| - 1;
      StripRightKeepsWords(lang, text[..n]);
      assert text == text[..n] + [text[n]] + "";
      WordsAcross(lang, text[..n], text[n], "");
    }
  }

  lemma StripKeepsWords(lang: Lang, text: string)
    ensures Words(lang, Strip(lang, text)) == Words(lang, text)
  {
    StripLeftKeepsWords(lang, text);
    StripRightKeepsWords(lang, StripLeft(lang, text));
  }

  lemma {:induction false} SameStripLeft(a: Lang, b: Lang, text: string)
    requires forall c :: a.space(c) == b.space(c)
    ensures StripLeft(a, text) == StripLeft(b, text)
  {
    if text != "" { SameStripLeft(a, b, text[1..]); }
  }

  lemma {:induction false} SameStripRight(a: Lang, b: Lang, text: string)
    requires forall c :: a.space(c) == b.space(c)
    ensures StripRight(a, text) == StripRight(b, text)
  {
    if text != "" { SameStripRight(a, b, text[..|text| - 1]); }
  }

  lemma SameStrip(a: Lang, b: Lang, text: string)
    requires forall c :: a.space(c) == b.space(c)
    ensures Strip(a, text) == Strip(b, text)
  {
    SameStripLeft(a, b, text);
    SameStripRight(a, b, StripLeft(a, text));
  }
}
