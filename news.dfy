/**
 * The news classifiers of backend/news_service.py: keyword categories, keyword sentiment,
 * elapsed-time labels and the breaking-news flag derived from them. The elapsed time in
 * seconds is a parameter (None where the feed's date cannot be parsed).
 */
module News {
  import opened Wrappers
  import opened Strings

  datatype Category = Crypto | ActionsUS | Economie | MatieresPremieres | MarchesGlobaux

  /** The label the API returns for a category. */
  function CategoryLabel(c: Category): string
  {
    match c
    case Crypto => "Crypto"
    case ActionsUS => "Actions US"
    case Economie => "Économie"
    case MatieresPremieres => "Matières Premières"
    case MarchesGlobaux => "Marchés Globaux"
  }

  const CryptoWords: seq<string> := ["bitcoin", "btc", "ethereum", "eth", "crypto", "blockchain"]
  const UsStockWords: seq<string> := ["nasdaq", "dow", "s&p", "wall street", "nyse", "apple", "tesla", "nvidia"]
  const MacroWords: seq<string> := ["fed", "inflation", "interest rate", "gdp", "unemployment", "central bank"]
  const CommodityWords: seq<string> := ["oil", "gold", "silver", "commodity", "crude"]
  const BullishWords: seq<string> :=
    ["surge", "rally", "gain", "rise", "jump", "soar", "record high", "bullish", "optimistic"]
  const BearishWords: seq<string> :=
    ["plunge", "crash", "fall", "drop", "decline", "bearish", "pessimistic", "concern", "fear"]

  /** The text both classifiers scan: title and description, lower-cased. */
  function Content(title: string, description: string): string
  {
    Lower(title + " " + description)
  }

  /** `any(word in content for word in words)`. */
  predicate AnyIn(content: string, words: seq<string>)
  {
    exists i :: 0 <= i < |words| && Contains(content, words[i])
  }

  /** The first keyword list that hits decides: Crypto, then US stocks, then macro, then commodities. */
  function CategorizeArticle(title: string, description: string): (c: Category)
    ensures var text := Content(title, description);
      (c == Crypto <==> AnyIn(text, CryptoWords))
      && (c == ActionsUS <==> !AnyIn(text, CryptoWords) && AnyIn(text, UsStockWords))
      && (c == Economie <==> !AnyIn(text, CryptoWords) && !AnyIn(text, UsStockWords) && AnyIn(text, MacroWords))
      && (c == MatieresPremieres <==> !AnyIn(text, CryptoWords) && !AnyIn(text, UsStockWords)
                                      && !AnyIn(text, MacroWords) && AnyIn(text, CommodityWords))
  {
    var text := Content(title, description);
    if AnyIn(text, CryptoWords) then Crypto
    else if AnyIn(text, UsStockWords) then ActionsUS
    else if AnyIn(text, MacroWords) then Economie
    else if AnyIn(text, CommodityWords) then MatieresPremieres
    else MarchesGlobaux
  }

  /** Every keyword of the list occurs in the content. */
  predicate AllIn(content: string, words: seq<string>)
  {
    forall i :: 0 <= i < |words| ==> Contains(content, words[i])
  }

  /** `sum(1 for word in words if word in content)`: each keyword counts once at most. */
  function KeywordCount(content: string, words: seq<string>): (n: nat)
    ensures n <= |words|
    ensures n == 0 <==> !AnyIn(content, words)
    ensures n == |words| <==> AllIn(content, words)
  {
    if words == [] then 0
    else
      var rest := words[..|words| - 1];
      var n := KeywordCount(content, rest) + (if Contains(content, words[|words| - 1]) then 1 else 0);
      assert AnyIn(content, words) <==> AnyIn(content, rest) || Contains(content, words[|words| - 1]) by {
        if AnyIn(content, rest) {
          var i :| 0 <= i < |rest| && Contains(content, rest[i]);
          assert words[i] == rest[i];
        }
        if AnyIn(content, words) {
          var i :| 0 <= i < |words| && Contains(content, words[i]);
          if i < |rest| {
            assert rest[i] == words[i];
          }
        }
      }
      assert AllIn(content, words) <==> AllIn(content, rest) && Contains(content, words[|words| - 1]) by {
        if AllIn(content, rest) && Contains(content, words[|words| - 1]) {
          forall i | 0 <= i < |words|
            ensures Contains(content, words[i])
          {
            if i < |rest| {
              assert rest[i] == words[i];
            }
          }
        }
        if AllIn(content, words) {
          forall i | 0 <= i < |rest|
            ensures Contains(content, rest[i])
          {
            assert rest[i] == words[i];
          }
        }
      }
      n
  }

  /** A single keyword counts one exactly when it occurs. */
  lemma KeywordCountSingle(content: string, w: string)
    ensures KeywordCount(content, [w]) == if Contains(content, w) then 1 else 0
  {
    assert [w][..0] == [];
  }

  /**
   * Counting over two lists adds up. With KeywordCountSingle it fixes the count as the number
   * of listed keywords, repetitions included, that occur in the content.
   */
  lemma {:induction false} KeywordCountConcat(content: string, a: seq<string>, b: seq<string>)
    ensures KeywordCount(content, a + b) == KeywordCount(content, a) + KeywordCount(content, b)
    decreases |b|
  {
    if b == [] {
      assert a + b == a;
    } else {
      assert (a + b)[..|a + b| - 1] == a + b[..|b| - 1];
      assert (a + b)[|a + b| - 1] == b[|b| - 1];
      KeywordCountConcat(content, a, b[..|b| - 1]);
    }
  }

  datatype Sentiment = Bullish | Bearish | Neutre

  /** More bullish than bearish keywords is Bullish, the reverse Bearish, a tie (0-0 included) Neutre. */
  function GetSentiment(title: string, description: string): (s: Sentiment)
    ensures var text := Content(title, description);
      var up := KeywordCount(text, BullishWords);
      var down := KeywordCount(text, BearishWords);
      up <= 9 && down <= 9
      && (s == Bullish <==> up > down) && (s == Bearish <==> down > up) && (s == Neutre <==> up == down)
  {
    var text := Content(title, description);
    var up := KeywordCount(text, BullishWords);
    var down := KeywordCount(text, BearishWords);
    if up > down then Bullish else if down > up then Bearish else Neutre
  }

  /** Text without any sentiment keyword is Neutre. */
  lemma NoKeywordIsNeutral(title: string, description: string)
    requires !AnyIn(Content(title, description), BullishWords) && !AnyIn(Content(title, description), BearishWords)
    ensures GetSentiment(title, description) == Neutre
  {
  }

  /** Text that agrees up to ASCII case is scanned as the same content. */
  lemma {:induction false} ContentIgnoresCase(t1: string, d1: string, t2: string, d2: string)
    requires Lower(t1) == Lower(t2) && Lower(d1) == Lower(d2)
    ensures Content(t1, d1) == Content(t2, d2)
  {
    LowerConcat(t1 + " ", d1);
    LowerConcat(t1, " ");
    LowerConcat(t2 + " ", d2);
    LowerConcat(t2, " ");
  }

  /** Both classifiers are blind to ASCII case. */
  lemma {:induction false} ClassifiersIgnoreCase(title: string, description: string)
    ensures CategorizeArticle(Upper(title), Upper(description)) == CategorizeArticle(title, description)
    ensures GetSentiment(Upper(title), Upper(description)) == GetSentiment(title, description)
  {
    LowerOfUpper(title);
    LowerOfUpper(description);
    ContentIgnoresCase(Upper(title), Upper(description), title, description);
  }

  /** The seconds-to-label buckets of get_time_ago; `int()` truncates, and the count is positive. */
  function GetTimeAgo(seconds: Option<real>): (tag: string)
    ensures seconds.None? ==> tag == "récemment"
    ensures seconds.Some? && seconds.value < 60.0 ==> tag == "à l'instant"
    ensures seconds.Some? && 60.0 <= seconds.value < 3600.0 ==>
      1 <= Minutes(seconds.value) < 60 && tag == "il y a " + NatToString(Minutes(seconds.value)) + "min"
    ensures seconds.Some? && 3600.0 <= seconds.value < 86400.0 ==>
      1 <= Hours(seconds.value) < 24 && tag == "il y a " + NatToString(Hours(seconds.value)) + "h"
    ensures seconds.Some? && 86400.0 <= seconds.value ==>
      1 <= Days(seconds.value) && tag == "il y a " + NatToString(Days(seconds.value)) + "j"
  {
    match seconds
    case None => "récemment"
    case Some(s) =>
      if s < 60.0 then "à l'instant"
      else if s < 3600.0 then "il y a " + NatToString(Minutes(s)) + "min"
      else if s < 86400.0 then "il y a " + NatToString(Hours(s)) + "h"
      else "il y a " + NatToString(Days(s)) + "j"
  }

  /** `int(seconds / 60)` for a positive elapsed time. */
  function Minutes(s: real): (m: nat)
    requires s >= 0.0
    ensures m as real <= s / 60.0 < m as real + 1.0
  {
    (s / 60.0).Floor as nat
  }

  /** `int(seconds / 3600)` for a positive elapsed time. */
  function Hours(s: real): (h: nat)
    requires s >= 0.0
    ensures h as real <= s / 3600.0 < h as real + 1.0
  {
    (s / 3600.0).Floor as nat
  }

  /** `int(seconds / 86400)` for a positive elapsed time. */
  function Days(s: real): (d: nat)
    requires s >= 0.0
    ensures d as real <= s / 86400.0 < d as real + 1.0
  {
    (s / 86400.0).Floor as nat
  }

  /**
   * The breaking flag: the label mentions "min" and "il y a", the text between "il y a " and
   * "min" parses as an integer, and that integer is below 30. A failed split or parse leaves
   * the flag off, as the surrounding try/except does.
   */
  function IsBreaking(tag: string): bool
  {
    if Contains(tag, "min") && Contains(tag, "il y a") then
      match SecondPiece(tag, "il y a ")
      case None => false
      case Some(piece) =>
        match ParseInt(BeforeFirst(piece, "min"))
        case None => false
        case Some(mins) => mins < 30
    else false
  }

  /** A label without the letter 'm' never reads as breaking. */
  lemma NoMinuteMarkNotBreaking(tag: string)
    requires 'm' !in tag
    ensures !IsBreaking(tag)
  {
    MissingCharNotContained(tag, "min", 0);
  }

  /** The pieces of a minutes label that the breaking rule looks at. */
  lemma {:induction false} MinutesLabelPieces(d: string)
    requires AllDigits(d)
    ensures Contains("il y a " + d + "min", "min")
    ensures Contains("il y a " + d + "min", "il y a")
    ensures SecondPiece("il y a " + d + "min", "il y a ") == Some(d + "min")
  {
    var tag := "il y a " + d + "min";
    NoDigitIsLetter(d, 'm');
    assert 'm' !in "il y a " + d;
    FindAfterPrefix("il y a " + d, "min", "");
    assert tag == "il y a " + d + "min" + "";
    FindAtStart("il y a", " " + d + "min");
    assert tag == "il y a" + (" " + d + "min");
    PieceAfterPrefix(d);
  }

  lemma {:induction false} PieceAfterPrefix(d: string)
    requires AllDigits(d)
    ensures SecondPiece("il y a " + d + "min", "il y a ") == Some(d + "min")
  {
    var tag := "il y a " + d + "min";
    FindAtStart("il y a ", d + "min");
    assert tag == "il y a " + (d + "min");
    assert tag[|"il y a "|..] == d + "min";
    BeforeNextPrefix(d);
  }

  /** "il y a " does not occur again after the numeral. */
  lemma BeforeNextPrefix(d: string)
    requires AllDigits(d)
    ensures BeforeFirst(d + "min", "il y a ") == d + "min"
  {
    NoDigitIsLetter(d, 'l');
    assert 'l' !in d + "min";
    MissingCharNotContained(d + "min", "il y a ", 1);
  }

  /** The breaking flag of a minutes label is exactly "fewer than 30 minutes". */
  lemma {:induction false} MinutesLabelBreaking(m: nat)
    ensures IsBreaking("il y a " + NatToString(m) + "min") <==> m < 30
  {
    var d := NatToString(m);
    MinutesLabelPieces(d);
    NoDigitIsLetter(d, 'm');
    FindAfterPrefix(d, "min", "");
    assert d + "min" == d + "min" + "";
    assert BeforeFirst(d + "min", "min") == d;
    ParseNatToString(m);
  }

  /** An article is breaking exactly when it was published between one and thirty minutes ago. */
  lemma {:induction false} BreakingIffUnderHalfHour(seconds: Option<real>)
    ensures IsBreaking(GetTimeAgo(seconds)) <==> seconds.Some? && 60.0 <= seconds.value < 1800.0
  {
    var tag := GetTimeAgo(seconds);
    match seconds
    case None =>
      MissingCharNotContained(tag, "il y a", 3);
    case Some(s) =>
      if s < 60.0 {
        NoMinuteMarkNotBreaking(tag);
      } else if s < 3600.0 {
        MinutesLabelBreaking(Minutes(s));
      } else if s < 86400.0 {
        NoDigitIsLetter(NatToString(Hours(s)), 'm');
        NoMinuteMarkNotBreaking(tag);
      } else {
        NoDigitIsLetter(NatToString(Days(s)), 'm');
        NoMinuteMarkNotBreaking(tag);
      }
  }
}
