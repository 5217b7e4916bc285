/**
 * Amounts written out in Thai words, as on a Thai receipt or withholding
 * certificate: the baht part read as a Thai number, then "บาท", then
 * either "ถ้วน" (exactly) or the satang read as a number and "สตางค์".
 *
 * The text is built from Thai number words. A reader for those words (how
 * a Thai speaker turns "ยี่สิบเอ็ด" back into 21) and a tokenizer for the
 * text are the partners the spelling is proved against: reading the text
 * back gives the amount that was spelled.
 */
module Currency {
  import opened Options

  // ---------------------------------------------------------------------
  // Decimal digits
  // ---------------------------------------------------------------------

  function Pow10(k: nat): (r: nat)
    ensures r >= 1
  {
    if k == 0 then 1 else 10 * Pow10(k - 1)
  }

  predicate AllDigits(ds: seq<nat>)
  {
    forall i :: 0 <= i < |ds| ==> ds[i] <= 9
  }

  /** The number a digit string denotes, most significant digit first. */
  function Val(ds: seq<nat>): nat
  {
    if |ds| == 0 then 0 else Val(ds[..|ds| - 1]) * 10 + ds[|ds| - 1]
  }

  /** Reading a concatenation: the left part is shifted by the length of the right part. */
  lemma {:induction false} ValConcat(a: seq<nat>, b: seq<nat>)
    ensures Val(a + b) == Val(a) * Pow10(|b|) + Val(b)
    decreases |b|
  {
    if |b| == 0 {
      assert a + b == a;
    } else {
      var b' := b[..|b| - 1];
      assert (a + b)[..|a + b| - 1] == a + b';
      ValConcat(a, b');
      var x := Val(a);
      var p := Pow10(|b'|);
      calc {
        Val(a + b);
        Val(a + b') * 10 + b[|b| - 1];
        (x * p + Val(b')) * 10 + b[|b| - 1];
        x * (p * 10) + (Val(b') * 10 + b[|b| - 1]);
        x * Pow10(|b|) + Val(b);
      }
    }
  }

  /**
   * The decimal digits of a whole number, most significant first and with no
   * leading zero: the integer part that toFixed(2) prints.
   */
  function DecimalDigits(n: nat): (ds: seq<nat>)
    ensures 1 <= |ds| && AllDigits(ds)
    ensures Val(ds) == n
    ensures n > 0 ==> ds[0] > 0
    ensures forall k: nat :: 1 <= k && n < Pow10(k) ==> |ds| <= k
  {
    if n < 10 then [n]
    else
      var front := DecimalDigits(n / 10);
      assert (front + [n % 10])[..|front|] == front;
      front + [n % 10]
  }

  // ---------------------------------------------------------------------
  // Thai number words
  // ---------------------------------------------------------------------

  /**
   * The words the amount text is made of. Digit(d) is the name of a digit
   * 1..9, Et is "เอ็ด" (a units digit one after higher digits), Yi is "ยี่"
   * (a tens digit two), Place(p) is the name of the power 10^p for p in
   * 1..6 (Place(6) is "ล้าน", a million).
   */
  datatype Word = Digit(d: nat) | Et | Yi | Place(p: nat) | Zero | Baht | Even | Satang

  const DigitNames: seq<string> := ["", "หนึ่ง", "สอง", "สาม", "สี่", "ห้า", "หก", "เจ็ด", "แปด", "เก้า"]
  const PlaceNames: seq<string> := ["", "สิบ", "ร้อย", "พัน", "หมื่น", "แสน", "ล้าน"]

  predicate NumberWord(w: Word)
  {
    match w
    case Digit(d) => 1 <= d <= 9
    case Et => true
    case Yi => true
    case Place(p) => 1 <= p <= 6
    case _ => false
  }

  predicate ValidWord(w: Word)
  {
    NumberWord(w) || w.Zero? || w.Baht? || w.Even? || w.Satang?
  }

  function Spell(w: Word): string
  {
    match w
    case Digit(d) => if d <= 9 then DigitNames[d] else ""
    case Et => "เอ็ด"
    case Yi => "ยี่"
    case Place(p) => if p <= 6 then PlaceNames[p] else ""
    case Zero => "ศูนย์"
    case Baht => "บาท"
    case Even => "ถ้วน"
    case Satang => "สตางค์"
  }

  function Render(ws: seq<Word>): string
  {
    if |ws| == 0 then "" else Spell(ws[0]) + Render(ws[1..])
  }

  lemma {:induction false} RenderAppend(a: seq<Word>, b: seq<Word>)
    ensures Render(a + b) == Render(a) + Render(b)
    decreases |a|
  {
    if |a| == 0 {
      assert a + b == b;
    } else {
      assert (a + b)[1..] == a[1..] + b;
      RenderAppend(a[1..], b);
    }
  }

  /** Appending a digit's lead and place name one after the other appends the digit's text. */
  lemma AppendPiece(before: string, lead: string, place: string, piece: string)
    requires piece == lead + place
    ensures (before + lead) + place == before + piece
  {
  }

  lemma RenderPair(a: Word, b: Word)
    ensures Render([a, b]) == Spell(a) + Spell(b)
  {
    assert [a, b][1..] == [b];
    assert Render([b]) == Spell(b) + Render([]);
  }

  /**
   * The words thaiNum writes for digit d at position pos (0 for units) of a
   * digit string of length len: nothing for a zero; "เอ็ด" for a units one
   * after other digits; "ยี่" for a tens two; no digit name for a tens one;
   * the digit's own name otherwise; then the name of the position, which is
   * empty for the units.
   */
  function DigitWords(d: nat, pos: nat, len: nat): (ws: seq<Word>)
    requires d <= 9 && pos <= 6
    ensures forall k :: 0 <= k < |ws| ==> NumberWord(ws[k])
  {
    if d == 0 then []
    else
      var lead :=
        if pos == 0 && d == 1 && len > 1 then [Et]
        else if pos == 1 && d == 2 then [Yi]
        else if pos == 1 && d == 1 then []
        else [Digit(d)];
      lead + (if pos == 0 then [] else [Place(pos)])
  }

  /** What thaiNum writes before a nonzero digit's place name. */
  function LeadText(d: nat, pos: nat, len: nat): string
    requires d <= 9
  {
    if pos == 0 && d == 1 && len > 1 then "เอ็ด"
    else if pos == 1 && d == 2 then "ยี่"
    else if pos == 1 && d == 1 then ""
    else DigitNames[d]
  }

  /** The text thaiNum appends for digit d at position pos: nothing for a zero, else the lead and the place name. */
  function DigitText(d: nat, pos: nat, len: nat): string
    requires d <= 9 && pos <= 6
  {
    if d == 0 then "" else LeadText(d, pos, len) + PlaceNames[pos]
  }

  /** The text of a digit's words is the text thaiNum appends for it, and it is empty only for a zero. */
  lemma RenderDigitWords(d: nat, pos: nat, len: nat)
    requires d <= 9 && pos <= 6
    ensures Render(DigitWords(d, pos, len)) == DigitText(d, pos, len)
    ensures |DigitText(d, pos, len)| == 0 <==> d == 0
  {
    var ws := DigitWords(d, pos, len);
    if d != 0 {
      if pos == 0 {
        assert Render(ws) == Spell(ws[0]) + Render([]);
      } else if pos == 1 && d == 1 {
        assert ws == [Place(1)];
        assert Render(ws) == Spell(ws[0]) + Render([]);
      } else {
        assert ws == [ws[0], Place(pos)];
        RenderPair(ws[0], Place(pos));
      }
    }
  }

  /** The words for the first i digits of n. */
  function WordsTo(n: seq<nat>, i: nat): (ws: seq<Word>)
    requires i <= |n| <= 7 && AllDigits(n)
    ensures forall k :: 0 <= k < |ws| ==> NumberWord(ws[k])
  {
    if i == 0 then []
    else WordsTo(n, i - 1) + DigitWords(n[i - 1], |n| - i, |n|)
  }

  lemma WordsToStep(n: seq<nat>, i: nat)
    requires 0 < i <= |n| <= 7 && AllDigits(n)
    ensures WordsTo(n, i) == WordsTo(n, i - 1) + DigitWords(n[i - 1], |n| - i, |n|)
  {
  }

  /** The text thaiNum has written after the first i digits of n. */
  function TextTo(n: seq<nat>, i: nat): string
    requires i <= |n| <= 7 && AllDigits(n)
  {
    if i == 0 then "" else TextTo(n, i - 1) + DigitText(n[i - 1], |n| - i, |n|)
  }

  lemma {:induction false} TextToRendersWords(n: seq<nat>, i: nat)
    requires i <= |n| <= 7 && AllDigits(n)
    ensures TextTo(n, i) == Render(WordsTo(n, i))
  {
    if i == 0 {
      assert TextTo(n, 0) == "";
      assert WordsTo(n, 0) == [];
      assert Render([]) == "";
    } else {
      TextToRendersWords(n, i - 1);
      TextToStep(n, i);
    }
  }

  lemma TextToStep(n: seq<nat>, i: nat)
    requires 0 < i <= |n| <= 7 && AllDigits(n)
    requires TextTo(n, i - 1) == Render(WordsTo(n, i - 1))
    ensures TextTo(n, i) == Render(WordsTo(n, i))
  {
    var said := WordsTo(n, i - 1);
    var added := DigitWords(n[i - 1], |n| - i, |n|);
    RenderAppend(said, added);
    RenderDigitWords(n[i - 1], |n| - i, |n|);
  }

  /** thaiNum writes nothing at all exactly for the digits of zero. */
  lemma {:induction false} EmptyTextIffZero(n: seq<nat>, i: nat)
    requires i <= |n| <= 7 && AllDigits(n)
    ensures |TextTo(n, i)| == 0 <==> Val(n[..i]) == 0
  {
    if i > 0 {
      var d := n[i - 1];
      EmptyTextIffZero(n, i - 1);
      RenderDigitWords(d, |n| - i, |n|);
      ValLast(n, i);
      ZeroStep(|TextTo(n, i)|, |TextTo(n, i - 1)|, |DigitText(d, |n| - i, |n|)|, Val(n[..i]), Val(n[..i - 1]), d);
    } else {
      assert n[..0] == [];
    }
  }

  /** Appending a digit's text: the text stays empty exactly when the value stays zero. */
  lemma ZeroStep(size: nat, sizeBefore: nat, sizeAdded: nat, value: nat, before: nat, d: nat)
    requires size == sizeBefore + sizeAdded && value == before * 10 + d
    requires sizeBefore == 0 <==> before == 0
    requires sizeAdded == 0 <==> d == 0
    ensures size == 0 <==> value == 0
  {
  }

  /** The words of thaiNum: a digit string of at most seven digits read as a Thai number. */
  function NumWords(n: seq<nat>): seq<Word>
    requires |n| <= 7 && AllDigits(n)
  {
    WordsTo(n, |n|)
  }

  // ---------------------------------------------------------------------
  // Reading Thai number words
  // ---------------------------------------------------------------------

  /** A reader's state: the value heard so far and the digit waiting for its place name. */
  datatype Reading = Reading(total: nat, pending: nat)

  /**
   * How a Thai reader takes in one word: a digit name (or เอ็ด, ยี่) waits
   * for a place name; a place name multiplies the waiting digit, or one
   * when none waits ("สิบ" alone is ten); "ล้าน" multiplies everything
   * heard so far by a million.
   */
  function Hear(r: Reading, w: Word): Reading
  {
    match w
    case Digit(d) => Reading(r.total, d)
    case Et => Reading(r.total, 1)
    case Yi => Reading(r.total, 2)
    case Place(p) =>
      if p == 6 then Reading((r.total + r.pending) * Pow10(6), 0)
      else Reading(r.total + (if r.pending == 0 then 1 else r.pending) * Pow10(p), 0)
    case _ => r
  }

  function HearAll(r: Reading, ws: seq<Word>): Reading
    decreases |ws|
  {
    if |ws| == 0 then r else HearAll(Hear(r, ws[0]), ws[1..])
  }

  function Value(r: Reading): nat
  {
    r.total + r.pending
  }

  function ReadNumber(ws: seq<Word>): nat
  {
    Value(HearAll(Reading(0, 0), ws))
  }

  lemma {:induction false} HearAllAppend(r: Reading, a: seq<Word>, b: seq<Word>)
    ensures HearAll(r, a + b) == HearAll(HearAll(r, a), b)
    decreases |a|
  {
    if |a| == 0 {
      assert a + b == b;
    } else {
      assert (a + b)[1..] == a[1..] + b;
      HearAllAppend(Hear(r, a[0]), a[1..], b);
    }
  }

  /** Hearing the words of one digit: a place adds its value, the units digit waits to be added. */
  lemma HearDigit(t: nat, d: nat, pos: nat, len: nat)
    requires d <= 9 && pos <= 6 && pos < len
    requires pos == 6 ==> t == 0
    ensures HearAll(Reading(t, 0), DigitWords(d, pos, len))
         == if pos == 0 then Reading(t, d) else Reading(t + d * Pow10(pos), 0)
  {
    var ws := DigitWords(d, pos, len);
    if d == 0 {
    } else if pos == 0 {
      assert HearAll(Reading(t, 0), ws) == HearAll(Hear(Reading(t, 0), ws[0]), ws[1..]);
    } else {
      assert |ws| == 1 || |ws| == 2;
      if |ws| == 1 {
        assert ws == [Place(pos)];
        assert HearAll(Reading(t, 0), ws) == HearAll(Hear(Reading(t, 0), ws[0]), ws[1..]);
      } else {
        assert ws[1] == Place(pos);
        var r1 := Hear(Reading(t, 0), ws[0]);
        assert r1 == Reading(t, d);
        assert HearAll(Reading(t, 0), ws) == HearAll(r1, ws[1..]);
        assert HearAll(r1, ws[1..]) == HearAll(Hear(r1, ws[1]), ws[2..]);
      }
    }
  }

  /** A value t + before * 10p with d still to come at p is t + (before * 10 + d) * p once d is heard. */
  lemma ShiftDigit(t: nat, before: nat, d: nat, p: nat, shifted: nat, value: nat)
    requires shifted == 10 * p && value == before * 10 + d
    ensures t + before * shifted + d * p == t + value * p
  {
  }

  lemma ValLast(n: seq<nat>, i: nat)
    requires 0 < i <= |n|
    ensures Val(n[..i]) == Val(n[..i - 1]) * 10 + n[i - 1]
  {
    assert n[..i][..i - 1] == n[..i - 1];
  }

  /**
   * A digit string thaiNum accepts, read after a value t already heard: a
   * full seven digits reach the millions, so nothing may come before them.
   */
  predicate Readable(n: seq<nat>, t: nat)
  {
    1 <= |n| <= 7 && AllDigits(n) && (|n| == 7 ==> t == 0)
  }

  /** After the words of the first i digits of n the reader holds t plus their value, shifted to their places. */
  predicate HeardPrefix(n: seq<nat>, t: nat, i: nat)
    requires i <= |n| <= 7 && AllDigits(n)
  {
    HearAll(Reading(t, 0), WordsTo(n, i)) == Reading(t + Val(n[..i]) * Pow10(|n| - i), 0)
  }

  /** After the first i digits of n, all of them in positions of ten or more, the reader holds their value. */
  lemma {:induction false} HearPrefix(n: seq<nat>, t: nat, i: nat)
    requires Readable(n, t) && i < |n|
    ensures HeardPrefix(n, t, i)
  {
    if i == 0 {
      HearNoDigit(n, t);
    } else {
      HearPrefix(n, t, i - 1);
      HearNextDigit(n, t, i);
    }
  }

  lemma HearNoDigit(n: seq<nat>, t: nat)
    requires Readable(n, t)
    ensures HeardPrefix(n, t, 0)
  {
    assert n[..0] == [];
  }

  /** One more digit heard: the value held grows from the first i - 1 digits to the first i. */
  lemma HearNextDigit(n: seq<nat>, t: nat, i: nat)
    requires Readable(n, t) && 0 < i < |n|
    requires HeardPrefix(n, t, i - 1)
    ensures HeardPrefix(n, t, i)
  {
    var u := t + Val(n[..i - 1]) * Pow10(|n| - (i - 1));
    HearThroughPrefix(n, t, i);
    assert |n| - i == 6 ==> u == 0 by {
      if |n| - i == 6 {
        assert n[..0] == [];
      }
    }
    HearDigit(u, n[i - 1], |n| - i, |n|);
    ValLast(n, i);
    assert Pow10(|n| - (i - 1)) == 10 * Pow10(|n| - i);
    ShiftDigit(t, Val(n[..i - 1]), n[i - 1], Pow10(|n| - i), Pow10(|n| - (i - 1)), Val(n[..i]));
  }

  /** After a heard prefix, the next digit's words are heard from the prefix's reading. */
  lemma HearThroughPrefix(n: seq<nat>, t: nat, i: nat)
    requires Readable(n, t) && 0 < i < |n|
    requires HeardPrefix(n, t, i - 1)
    ensures HearAll(Reading(t, 0), WordsTo(n, i))
         == HearAll(Reading(t + Val(n[..i - 1]) * Pow10(|n| - (i - 1)), 0), DigitWords(n[i - 1], |n| - i, |n|))
  {
    WordsToStep(n, i);
    HearAllAppend(Reading(t, 0), WordsTo(n, i - 1), DigitWords(n[i - 1], |n| - i, |n|));
  }

  /** Reading the words of a digit string, after a value t already heard, adds the string's value to t. */
  lemma ReadNumWords(n: seq<nat>, t: nat)
    requires Readable(n, t)
    ensures Value(HearAll(Reading(t, 0), NumWords(n))) == t + Val(n)
  {
    var L := |n|;
    HearPrefix(n, t, L - 1);
    assert HeardPrefix(n, t, L - 1);
    var u := t + Val(n[..L - 1]) * Pow10(L - (L - 1));
    WordsToStep(n, L);
    HearAllAppend(Reading(t, 0), WordsTo(n, L - 1), DigitWords(n[L - 1], 0, L));
    HearDigit(u, n[L - 1], 0, L);
    assert Pow10(L - (L - 1)) == 10;
    assert n[..L] == n;
    ValLast(n, L);
    UnitsDigit(t, Val(n[..L - 1]), n[L - 1], Pow10(L - (L - 1)), Val(n));
  }

  /** The units digit is added as it is once the digits before it are worth ten times their value. */
  lemma UnitsDigit(t: nat, before: nat, d: nat, ten: nat, value: nat)
    requires ten == 10 && value == before * 10 + d
    ensures t + before * ten + d == t + value
  {
  }

  // ---------------------------------------------------------------------
  // Tokenizing the text
  // ---------------------------------------------------------------------

  /** Every word's spelling starts with two characters no other word starts with. */
  function WordStartingWith(a: char, b: char): Option<Word>
  {
    var k := [a, b];
    if k == "หน" then Some(Digit(1))
    else if k == "สอ" then Some(Digit(2))
    else if k == "สา" then Some(Digit(3))
    else if k == "สี" then Some(Digit(4))
    else if k == "ห้" then Some(Digit(5))
    else if k == "หก" then Some(Digit(6))
    else if k == "เจ" then Some(Digit(7))
    else if k == "แป" then Some(Digit(8))
    else if k == "เก" then Some(Digit(9))
    else if k == "เอ" then Some(Et)
    else if k == "ยี" then Some(Yi)
    else if k == "สิ" then Some(Place(1))
    else if k == "ร้" then Some(Place(2))
    else if k == "พั" then Some(Place(3))
    else if k == "หม" then Some(Place(4))
    else if k == "แส" then Some(Place(5))
    else if k == "ล้" then Some(Place(6))
    else if k == "ศู" then Some(Zero)
    else if k == "บา" then Some(Baht)
    else if k == "ถ้" then Some(Even)
    else if k == "สต" then Some(Satang)
    else None
  }

  /** Splits a text into words, or fails where no word's spelling starts the rest. */
  function Lex(s: string): Option<seq<Word>>
    decreases |s|
  {
    if |s| == 0 then Some([])
    else if |s| < 2 then None
    else match WordStartingWith(s[0], s[1])
      case None => None
      case Some(w) =>
        var sp := Spell(w);
        if 2 <= |sp| && sp <= s then
          match Lex(s[|sp|..])
          case None => None
          case Some(rest) => Some([w] + rest)
        else None
  }

  /** The word's spelling has at least two characters, and they are the word's own key. */
  predicate KeyedBy(w: Word)
  {
    2 <= |Spell(w)| && WordStartingWith(Spell(w)[0], Spell(w)[1]) == Some(w)
  }

  /** Every valid word's spelling starts with its own two-character key. */
  lemma SpellingKey(w: Word)
    requires ValidWord(w)
    ensures KeyedBy(w)
  {
    match w
    case Digit(d) =>
      if d <= 5 { LowDigitKey(d); } else { HighDigitKey(d); }
    case Place(p) =>
      PlaceKey(p);
    case _ =>
  }

  lemma LowDigitKey(d: nat)
    requires 1 <= d <= 5
    ensures KeyedBy(Digit(d))
  {
    if d == 1 { assert Spell(Digit(d)) == "หนึ่ง"; }
    else if d == 2 { assert Spell(Digit(d)) == "สอง"; }
    else if d == 3 { assert Spell(Digit(d)) == "สาม"; }
    else if d == 4 { assert Spell(Digit(d)) == "สี่"; }
    else { assert Spell(Digit(d)) == "ห้า"; }
  }

  lemma HighDigitKey(d: nat)
    requires 6 <= d <= 9
    ensures KeyedBy(Digit(d))
  {
    if d == 6 { assert Spell(Digit(d)) == "หก"; }
    else if d == 7 { assert Spell(Digit(d)) == "เจ็ด"; }
    else if d == 8 { assert Spell(Digit(d)) == "แปด"; }
    else { assert Spell(Digit(d)) == "เก้า"; }
  }

  lemma PlaceKey(p: nat)
    requires 1 <= p <= 6
    ensures KeyedBy(Place(p))
  {
    if p == 1 { assert Spell(Place(p)) == "สิบ"; }
    else if p == 2 { assert Spell(Place(p)) == "ร้อย"; }
    else if p == 3 { assert Spell(Place(p)) == "พัน"; }
    else if p == 4 { assert Spell(Place(p)) == "หมื่น"; }
    else if p == 5 { assert Spell(Place(p)) == "แสน"; }
    else { assert Spell(Place(p)) == "ล้าน"; }
  }

  /** The tokenizer undoes rendering: the text of valid words splits back into those words. */
  lemma {:induction false} LexRender(ws: seq<Word>)
    requires forall k :: 0 <= k < |ws| ==> ValidWord(ws[k])
    ensures Lex(Render(ws)) == Some(ws)
    decreases |ws|
  {
    if |ws| > 0 {
      var w, rest := ValidSplit(ws);
      SpellingKey(w);
      LexRender(rest);
      LexStep(w, Render(rest), rest);
    }
  }

  /** A non-empty sequence of valid words is a valid first word and valid rest, and renders as such. */
  lemma ValidSplit(ws: seq<Word>) returns (w: Word, rest: seq<Word>)
    requires |ws| > 0 && forall k :: 0 <= k < |ws| ==> ValidWord(ws[k])
    ensures ws == [w] + rest && |rest| < |ws| && Render(ws) == Spell(w) + Render(rest)
    ensures ValidWord(w) && forall k :: 0 <= k < |rest| ==> ValidWord(rest[k])
  {
    w, rest := ws[0], ws[1..];
    assert ws == [w] + rest;
    assert forall k :: 0 <= k < |rest| ==> rest[k] == ws[k + 1];
  }

  /** A keyed word's spelling in front of a text that splits into words splits into that word and those. */
  lemma LexStep(w: Word, rest: string, restWords: seq<Word>)
    requires KeyedBy(w) && Lex(rest) == Some(restWords)
    ensures Lex(Spell(w) + rest) == Some([w] + restWords)
  {
    var s := Spell(w) + rest;
    var sp := Spell(w);
    assert s[0] == sp[0] && s[1] == sp[1];
    assert sp <= s;
    assert s[|sp|..] == rest;
  }

  // ---------------------------------------------------------------------
  // thaiNum
  // ---------------------------------------------------------------------

  /** A text read back as a Thai number, if it splits into words. */
  function ReadThaiNumber(s: string): Option<nat>
  {
    match Lex(s)
    case None => None
    case Some(ws) => Some(ReadNumber(ws))
  }

  /** The text of a digit string's words reads back as the string's value. */
  lemma NumberTextReadsBack(n: seq<nat>)
    requires 1 <= |n| <= 7 && AllDigits(n)
    ensures ReadThaiNumber(Render(NumWords(n))) == Some(Val(n))
  {
    NumWordsRead(n);
    WordsReadBack(NumWords(n), Val(n));
  }

  /** The words of a digit string are valid words and read as the string's value. */
  lemma NumWordsRead(n: seq<nat>)
    requires 1 <= |n| <= 7 && AllDigits(n)
    ensures forall k :: 0 <= k < |NumWords(n)| ==> ValidWord(NumWords(n)[k])
    ensures ReadNumber(NumWords(n)) == Val(n)
  {
    NumWordsValid(n);
    ReadNumWords(n, 0);
  }

  lemma NumWordsValid(n: seq<nat>)
    requires |n| <= 7 && AllDigits(n)
    ensures forall k :: 0 <= k < |NumWords(n)| ==> ValidWord(NumWords(n)[k])
  {
    var ws := NumWords(n);
    assert forall k :: 0 <= k < |ws| ==> NumberWord(ws[k]);
  }

  /** The text of valid words that read as v reads back as v. */
  lemma WordsReadBack(ws: seq<Word>, v: nat)
    requires forall k :: 0 <= k < |ws| ==> ValidWord(ws[k])
    requires ReadNumber(ws) == v
    ensures ReadThaiNumber(Render(ws)) == Some(v)
  {
    LexRender(ws);
  }

  /**
   * thaiNum: a digit string of at most seven digits (the place names stop
   * at ล้าน) written as Thai words. The text reads back as the string's
   * value, and it is empty exactly when every digit is zero.
   */
  method ThaiNum(n: seq<nat>) returns (res: string)
    requires |n| <= 7 && AllDigits(n)
    ensures res == Render(NumWords(n))
    ensures 1 <= |n| ==> ReadThaiNumber(res) == Some(Val(n))
    ensures res == "" <==> Val(n) == 0
  {
    res := "";
    var len := |n|;
    for i := 0 to len
      invariant res == TextTo(n, i)
    {
      var digit := n[i];
      var pos := len - 1 - i;
      ghost var before := res;
      if digit != 0 {
        res := res + LeadText(digit, pos, len);
        res := res + PlaceNames[pos];
        AppendPiece(before, LeadText(digit, pos, len), PlaceNames[pos], DigitText(digit, pos, len));
      }
    }
    TextToRendersWords(n, len);
    EmptyTextIffZero(n, len);
    assert n[..len] == n;
    if 1 <= |n| {
      NumberTextReadsBack(n);
    }
  }

  // ---------------------------------------------------------------------
  // toThaiBaht
  // ---------------------------------------------------------------------

  /** Baht amounts up to thirteen digits: the millions part then has at most seven, as thaiNum needs. */
  const BahtLimit: nat := 10_000_000_000_000

  lemma Pow10Thirteen()
    ensures Pow10(13) == BahtLimit
  {
    assert Pow10(1) == 10;
    assert Pow10(2) == 100;
    assert Pow10(3) == 1000;
    assert Pow10(4) == 10_000;
    assert Pow10(5) == 100_000;
    assert Pow10(6) == 1_000_000;
    assert Pow10(7) == 10_000_000;
    assert Pow10(8) == 100_000_000;
    assert Pow10(9) == 1_000_000_000;
    assert Pow10(10) == 10_000_000_000;
    assert Pow10(11) == 100_000_000_000;
    assert Pow10(12) == 1_000_000_000_000;
  }

  /** A baht amount below the limit has at most thirteen digits. */
  lemma BahtDigitCount(baht: nat)
    requires baht < BahtLimit
    ensures |DecimalDigits(baht)| <= 13
  {
    Pow10Thirteen();
  }

  /** The words for the baht part, ending in "บาท"; zero baht is "ศูนย์บาท". */
  function BahtWords(baht: nat): (ws: seq<Word>)
    requires baht < BahtLimit
  {
    if baht == 0 then [Zero, Baht]
    else
      var ds := DecimalDigits(baht);
      BahtDigitCount(baht);
      if |ds| > 6 then NumWords(ds[..|ds| - 6]) + [Place(6)] + NumWords(ds[|ds| - 6..]) + [Baht]
      else NumWords(ds) + [Baht]
  }

  /** The satang digits as toFixed(2) prints them: always two. */
  function SatangDigits(satang: nat): seq<nat>
    requires satang < 100
  {
    [satang / 10, satang % 10]
  }

  /** The words for the satang: "ถ้วน" for none, otherwise the satang read as a number and "สตางค์". */
  function SatangWords(satang: nat): (ws: seq<Word>)
    requires satang < 100
  {
    if satang == 0 then [Even]
    else if satang / 10 == 0 then NumWords([satang % 10]) + [Satang]
    else NumWords(SatangDigits(satang)) + [Satang]
  }

  /** The words toThaiBaht writes for an amount given in satang. */
  function AmountWords(amount: nat): seq<Word>
    requires amount < BahtLimit * 100
  {
    BahtWords(amount / 100) + SatangWords(amount % 100)
  }

  /** The position of the first occurrence of w in ws, or |ws| when there is none. */
  function FirstIndex(ws: seq<Word>, w: Word): (i: nat)
    ensures i <= |ws|
    ensures i < |ws| ==> ws[i] == w
    ensures forall k :: 0 <= k < i ==> ws[k] != w
  {
    if |ws| == 0 then 0
    else if ws[0] == w then 0
    else 1 + FirstIndex(ws[1..], w)
  }

  /**
   * Reads an amount in words back into satang: the words before "บาท" are
   * the baht ("ศูนย์" for none), and after it come either "ถ้วน" or the
   * satang read as a number followed by "สตางค์".
   */
  function ReadAmount(ws: seq<Word>): Option<nat>
  {
    var i := FirstIndex(ws, Baht);
    if i == |ws| then None
    else
      var before := ws[..i];
      var after := ws[i + 1..];
      var baht := if before == [Zero] then 0 else ReadNumber(before);
      if after == [Even] then Some(baht * 100)
      else if 1 <= |after| && after[|after| - 1] == Satang then Some(baht * 100 + ReadNumber(after[..|after| - 1]))
      else None
  }

  /** Reads a text in Thai words back into an amount in satang. */
  function ReadThaiBaht(s: string): Option<nat>
  {
    match Lex(s)
    case None => None
    case Some(ws) => ReadAmount(ws)
  }

  /** The baht words read back as the baht. */
  lemma ReadBahtWords(baht: nat)
    requires 0 < baht < BahtLimit
    ensures var ws := BahtWords(baht);
            1 <= |ws| && ws[|ws| - 1] == Baht
            && (forall k :: 0 <= k < |ws| - 1 ==> NumberWord(ws[k]))
            && ReadNumber(ws[..|ws| - 1]) == baht
  {
    var ds := DecimalDigits(baht);
    BahtDigitCount(baht);
    var ws := BahtWords(baht);
    if |ds| > 6 {
      var m := ds[..|ds| - 6];
      var r := ds[|ds| - 6..];
      var x := NumWords(m) + [Place(6)] + NumWords(r);
      assert ws == x + [Baht];
      assert ws[..|ws| - 1] == x;
      HearAllAppend(Reading(0, 0), NumWords(m) + [Place(6)], NumWords(r));
      HearAllAppend(Reading(0, 0), NumWords(m), [Place(6)]);
      var afterMillions := HearAll(Reading(0, 0), NumWords(m));
      ReadNumWords(m, 0);
      assert HearAll(afterMillions, [Place(6)]) == Hear(afterMillions, Place(6));
      assert Hear(afterMillions, Place(6)) == Reading(Val(m) * Pow10(6), 0);
      ReadNumWords(r, Val(m) * Pow10(6));
      ValConcat(m, r);
      assert m + r == ds;
    } else {
      assert ws[..|ws| - 1] == NumWords(ds);
      ReadNumWords(ds, 0);
    }
  }

  /** The satang words read back as the satang. */
  lemma ReadSatangWords(satang: nat)
    requires 0 < satang < 100
    ensures var ws := SatangWords(satang);
            1 <= |ws| && ws[|ws| - 1] == Satang && ws != [Even]
            && (forall k :: 0 <= k < |ws| - 1 ==> NumberWord(ws[k]))
            && ReadNumber(ws[..|ws| - 1]) == satang
  {
    var ws := SatangWords(satang);
    if satang / 10 == 0 {
      var ds := [satang % 10];
      assert ws[..|ws| - 1] == NumWords(ds);
      ReadNumWords(ds, 0);
      assert Val(ds) == Val([]) * 10 + satang % 10;
    } else {
      var ds := SatangDigits(satang);
      assert ws[..|ws| - 1] == NumWords(ds);
      ReadNumWords(ds, 0);
      assert ds[..1] == [satang / 10];
      assert Val(ds[..1]) == Val([]) * 10 + satang / 10;
    }
  }

  /** The first "บาท" in an amount's words is the one that ends the baht part. */
  lemma SplitAtBaht(x: seq<Word>, rest: seq<Word>)
    requires forall k :: 0 <= k < |x| ==> x[k] != Baht
    ensures var ws := x + [Baht] + rest;
            FirstIndex(ws, Baht) == |x| && ws[..|x|] == x && ws[|x| + 1..] == rest
  {
    var ws := x + [Baht] + rest;
    assert ws[|x|] == Baht;
    assert forall k :: 0 <= k < |x| ==> ws[k] == x[k];
  }

  /** Words before "บาท" that read as `baht`: "ศูนย์" for none, otherwise a Thai number. */
  predicate BahtPart(x: seq<Word>, baht: nat)
  {
    (forall k :: 0 <= k < |x| ==> x[k] != Baht)
    && ((x == [Zero] && baht == 0) || (x != [Zero] && ReadNumber(x) == baht))
  }

  /** Words after "บาท" that read as `satang`: "ถ้วน" for none, otherwise a Thai number and "สตางค์". */
  predicate SatangPart(rest: seq<Word>, satang: nat)
  {
    (rest == [Even] && satang == 0)
    || (rest != [Even] && 1 <= |rest| && rest[|rest| - 1] == Satang && ReadNumber(rest[..|rest| - 1]) == satang)
  }

  /** An amount's words read back as the baht part times a hundred plus the satang part. */
  lemma ReadParts(x: seq<Word>, rest: seq<Word>, baht: nat, satang: nat, amount: nat)
    requires BahtPart(x, baht) && SatangPart(rest, satang) && amount == baht * 100 + satang
    ensures ReadAmount(x + [Baht] + rest) == Some(amount)
  {
    SplitAtBaht(x, rest);
    var ws := x + [Baht] + rest;
    assert FirstIndex(ws, Baht) == |x| < |ws|;
    var heard := if x == [Zero] then 0 else ReadNumber(x);
    assert heard == baht;
    if rest == [Even] {
      assert ReadAmount(ws) == Some(heard * 100);
    } else {
      assert ReadAmount(ws) == Some(heard * 100 + ReadNumber(rest[..|rest| - 1]));
    }
  }

  /** The baht words are a baht part followed by "บาท". */
  lemma BahtWordsPart(baht: nat) returns (x: seq<Word>)
    requires baht < BahtLimit
    ensures BahtWords(baht) == x + [Baht] && BahtPart(x, baht)
  {
    var b := BahtWords(baht);
    x := b[..|b| - 1];
    if baht == 0 {
      assert x == [Zero];
    } else {
      ReadBahtWords(baht);
      assert x != [Zero] by { if |x| == 1 { assert NumberWord(x[0]); } }
      assert forall k :: 0 <= k < |x| ==> NumberWord(x[k]);
    }
    assert b == x + [Baht];
  }

  /** The satang words are a satang part. */
  lemma SatangWordsPart(satang: nat)
    requires satang < 100
    ensures SatangPart(SatangWords(satang), satang)
  {
    if satang != 0 {
      ReadSatangWords(satang);
    }
  }

  /** Every word of an amount is a word the tokenizer knows. */
  lemma AmountWordsValid(amount: nat)
    requires amount < BahtLimit * 100
    ensures forall k :: 0 <= k < |AmountWords(amount)| ==> ValidWord(AmountWords(amount)[k])
  {
    var baht := amount / 100;
    var satang := amount % 100;
    var b := BahtWords(baht);
    var s := SatangWords(satang);
    if baht != 0 {
      ReadBahtWords(baht);
    }
    if satang != 0 {
      ReadSatangWords(satang);
    }
    assert forall k :: 0 <= k < |b| ==> ValidWord(b[k]);
    assert forall k :: 0 <= k < |s| ==> ValidWord(s[k]);
    assert AmountWords(amount) == b + s;
  }

  /** Reading the words of an amount gives the amount back. */
  lemma ReadAmountWords(amount: nat)
    requires amount < BahtLimit * 100
    ensures ReadAmount(AmountWords(amount)) == Some(amount)
  {
    HundredSplit(amount);
    var x := AmountParts(amount);
    ReadParts(x, SatangWords(amount % 100), amount / 100, amount % 100, amount);
  }

  /** Whole baht and satang of an amount in satang. */
  lemma HundredSplit(amount: nat)
    requires amount < BahtLimit * 100
    ensures amount / 100 < BahtLimit && amount / 100 * 100 + amount % 100 == amount
  {
  }

  /** An amount's words are its baht words, บาท, then its satang words. */
  lemma AmountParts(amount: nat) returns (x: seq<Word>)
    requires amount / 100 < BahtLimit
    ensures AmountWords(amount) == x + [Baht] + SatangWords(amount % 100)
    ensures BahtPart(x, amount / 100) && SatangPart(SatangWords(amount % 100), amount % 100)
  {
    x := BahtWordsPart(amount / 100);
    SatangWordsPart(amount % 100);
  }

  /** The round trip: reading the text toThaiBaht writes gives the amount back. */
  lemma ThaiBahtRoundTrip(amount: nat)
    requires amount < BahtLimit * 100
    ensures ReadThaiBaht(Render(AmountWords(amount))) == Some(amount)
  {
    AmountWordsValid(amount);
    ReadAmountWords(amount);
    LexRender(AmountWords(amount));
  }

  lemma {:induction false} RenderThen(a: seq<Word>, w: Word)
    ensures Render(a + [w]) == Render(a) + Spell(w)
  {
    RenderAppend(a, [w]);
    assert Render([w]) == Spell(w) + Render([]);
  }

  /** The text of the baht words, in the pieces toThaiBaht puts together. */
  lemma BahtText(baht: nat)
    requires 0 < baht < BahtLimit
    ensures var ds := DecimalDigits(baht);
            |ds| <= 13
            && (|ds| > 6 ==>
                  Render(BahtWords(baht))
                  == Render(NumWords(ds[..|ds| - 6])) + "ล้าน" + Render(NumWords(ds[|ds| - 6..])) + "บาท")
            && (|ds| <= 6 ==> Render(BahtWords(baht)) == Render(NumWords(ds)) + "บาท")
  {
    var ds := DecimalDigits(baht);
    BahtDigitCount(baht);
    if |ds| > 6 {
      MillionsText(NumWords(ds[..|ds| - 6]), NumWords(ds[|ds| - 6..]));
    } else {
      UnitsText(NumWords(ds));
    }
  }

  /** Words with "ล้าน" between two parts and "บาท" at the end: the texts of the parts with those names. */
  lemma MillionsText(a: seq<Word>, b: seq<Word>)
    ensures Render(a + [Place(6)] + b + [Baht]) == Render(a) + "ล้าน" + Render(b) + "บาท"
  {
    RenderThen(a + [Place(6)] + b, Baht);
    RenderAppend(a + [Place(6)], b);
    RenderThen(a, Place(6));
    assert Spell(Place(6)) == "ล้าน" && Spell(Baht) == "บาท";
  }

  /** Words with "บาท" at the end: their text followed by "บาท". */
  lemma UnitsText(a: seq<Word>)
    ensures Render(a + [Baht]) == Render(a) + "บาท"
  {
    RenderThen(a, Baht);
    assert Spell(Baht) == "บาท";
  }

  /** The text of the satang words, in the pieces toThaiBaht puts together. */
  lemma SatangText(satang: nat)
    requires satang < 100
    ensures satang == 0 ==> Render(SatangWords(satang)) == "ถ้วน"
    ensures 0 < satang && satang / 10 == 0 ==> Render(SatangWords(satang)) == Render(NumWords([satang % 10])) + "สตางค์"
    ensures 0 < satang && satang / 10 != 0 ==> Render(SatangWords(satang)) == Render(NumWords(SatangDigits(satang))) + "สตางค์"
  {
    if satang == 0 {
      assert Render([Even]) == Spell(Even) + Render([]);
    } else if satang / 10 == 0 {
      RenderThen(NumWords([satang % 10]), Satang);
    } else {
      RenderThen(NumWords(SatangDigits(satang)), Satang);
    }
  }

  /**
   * toThaiBaht for an amount of satang below 10^15: the baht as toFixed(2)
   * prints them, "ศูนย์บาท" for none, otherwise thaiNum of the digits (split
   * at the millions when there are more than six) and "บาท"; then "ถ้วน" when
   * there are no satang, otherwise thaiNum of the satang (its leading zero
   * dropped) and "สตางค์". The text reads back as the amount.
   */
  method ToThaiBaht(amount: nat) returns (text: string)
    requires amount < BahtLimit * 100
    ensures text == Render(AmountWords(amount))
    ensures ReadThaiBaht(text) == Some(amount)
  {
    var bahtPart := DecimalDigits(amount / 100);
    var satangPart := SatangDigits(amount % 100);
    var baht := Val(bahtPart);
    var bahtTextFinal: string;
    if baht == 0 {
      bahtTextFinal := "ศูนย์บาท";
      assert Render(BahtWords(baht)) == Spell(Zero) + Spell(Baht) by { RenderPair(Zero, Baht); }
    } else {
      BahtText(baht);
      if |bahtPart| > 6 {
        var millions := bahtPart[..|bahtPart| - 6];
        var remainder := bahtPart[|bahtPart| - 6..];
        var m := ThaiNum(millions);
        var r := ThaiNum(remainder);
        bahtTextFinal := m + "ล้าน" + r;
      } else {
        bahtTextFinal := ThaiNum(bahtPart);
      }
      bahtTextFinal := bahtTextFinal + "บาท";
    }
    assert bahtTextFinal == Render(BahtWords(amount / 100));
    ghost var bahtText := bahtTextFinal;
    var satang := Val(satangPart);
    assert satang == amount % 100 by {
      assert satangPart[..1] == [satangPart[0]];
      assert Val(satangPart[..1]) == Val([]) * 10 + satangPart[0];
    }
    SatangText(satang);
    if satang == 0 {
      bahtTextFinal := bahtTextFinal + "ถ้วน";
    } else if satangPart[0] == 0 {
      var t := ThaiNum(satangPart[1..]);
      assert satangPart[1..] == [satang % 10];
      bahtTextFinal := bahtTextFinal + t + "สตางค์";
      AppendPiece(bahtText, t, "สตางค์", Render(SatangWords(satang)));
    } else {
      var t := ThaiNum(satangPart);
      bahtTextFinal := bahtTextFinal + t + "สตางค์";
      AppendPiece(bahtText, t, "สตางค์", Render(SatangWords(satang)));
    }
    text := bahtTextFinal;
    RenderAppend(BahtWords(amount / 100), SatangWords(amount % 100));
    ThaiBahtRoundTrip(amount);
  }

  /**
   * The text ends in "ถ้วน" exactly when there are no satang; otherwise it
   * ends in "สตางค์". Below one baht it starts with "ศูนย์บาท".
   */
  lemma ThaiBahtEnding(amount: nat)
    requires amount < BahtLimit * 100
    ensures var t := Render(AmountWords(amount));
            (amount % 100 == 0 <==> 4 <= |t| && t[|t| - 4..] == "ถ้วน")
            && (amount % 100 != 0 ==> 6 <= |t| && t[|t| - 6..] == "สตางค์")
    ensures var t := Render(AmountWords(amount));
            amount < 100 ==> 8 <= |t| && t[..8] == "ศูนย์บาท"
  {
    var bw := BahtWords(amount / 100);
    assert AmountWords(amount) == bw + SatangWords(amount % 100);
    SatangEnding(bw, amount % 100);
    if amount < 100 {
      assert bw == [Zero, Baht];
      ZeroBahtStart(SatangWords(amount % 100));
    }
  }

  /** Whatever precedes them, the satang words make the text end in "ถ้วน" or "สตางค์". */
  lemma SatangEnding(bw: seq<Word>, satang: nat)
    requires satang < 100
    ensures var t := Render(bw + SatangWords(satang));
            (satang == 0 <==> 4 <= |t| && t[|t| - 4..] == "ถ้วน")
            && (satang != 0 ==> 6 <= |t| && t[|t| - 6..] == "สตางค์")
  {
    var b := Render(bw);
    RenderAppend(bw, SatangWords(satang));
    SatangText(satang);
    var t := Render(bw + SatangWords(satang));
    if satang == 0 {
      EndsWith(b, "ถ้วน");
    } else {
      var x := if satang / 10 == 0 then Render(NumWords([satang % 10])) else Render(NumWords(SatangDigits(satang)));
      AppendPiece(b, x, "สตางค์", Render(SatangWords(satang)));
      EndsWith(b + x, "สตางค์");
      var tail := t[|t| - 4..];
      assert tail == t[|t| - 6..][2..];
      assert tail[0] == "สตางค์"[2] != "ถ้วน"[0];
    }
  }

  lemma ZeroBahtStart(sw: seq<Word>)
    ensures var t := Render([Zero, Baht] + sw);
            8 <= |t| && t[..8] == "ศูนย์บาท"
  {
    RenderPair(Zero, Baht);
    RenderAppend([Zero, Baht], sw);
    StartsWith(Render([Zero, Baht]), Render(sw));
  }

  lemma EndsWith(x: string, y: string)
    ensures (x + y)[|x + y| - |y|..] == y
  {
  }

  lemma StartsWith(x: string, y: string)
    ensures (x + y)[..|x|] == x
  {
  }

  /** No baht and no satang: "ศูนย์บาทถ้วน". */
  lemma ZeroAmountExample()
    ensures Render(AmountWords(0)) == "ศูนย์บาทถ้วน"
  {
    assert AmountWords(0) == [Zero, Baht, Even];
    RenderAppend([Zero, Baht], [Even]);
    RenderPair(Zero, Baht);
  }

  /** 21.50 baht: a tens two is ยี่, a units one after it is เอ็ด, fifty satang are ห้าสิบสตางค์. */
  lemma TwentyOneFiftyExample()
    ensures AmountWords(2150) == [Yi, Place(1), Et, Baht, Digit(5), Place(1), Satang]
  {
    assert 2150 / 100 == 21 && 2150 % 100 == 50;
    TwentyOneBaht();
    FiftySatang();
  }

  lemma TwentyOneBaht()
    ensures BahtWords(21) == [Yi, Place(1), Et, Baht]
  {
    assert DecimalDigits(2) == [2];
    assert DecimalDigits(21) == [2, 1];
    assert WordsTo([2, 1], 1) == [Yi, Place(1)];
    assert NumWords([2, 1]) == [Yi, Place(1), Et];
  }

  lemma FiftySatang()
    ensures SatangWords(50) == [Digit(5), Place(1), Satang]
  {
    assert SatangDigits(50) == [5, 0];
    assert WordsTo([5, 0], 1) == [Digit(5), Place(1)];
    assert NumWords([5, 0]) == [Digit(5), Place(1)];
  }

  /** 11 is สิบเอ็ด (a tens one has no digit name) and 101 is หนึ่งร้อยเอ็ด. */
  lemma ElevenAndHundredOneExample()
    ensures NumWords([1, 1]) == [Place(1), Et]
    ensures NumWords([1, 0, 1]) == [Digit(1), Place(2), Et]
  {
    assert WordsTo([1, 1], 1) == [Place(1)];
    assert WordsTo([1, 0, 1], 2) == [Digit(1), Place(2)];
  }

  /** Five and one satang: the leading zero is dropped, so one satang is หนึ่ง, not เอ็ด. */
  lemma SingleDigitSatangExample()
    ensures SatangWords(5) == [Digit(5), Satang]
    ensures SatangWords(1) == [Digit(1), Satang]
  {
    assert NumWords([5]) == [Digit(5)];
    assert NumWords([1]) == [Digit(1)];
  }

  /** One million and one baht: หนึ่ง, ล้าน, and a remainder of 000001 read as เอ็ด, then บาทถ้วน. */
  lemma MillionAndOneExample()
    ensures AmountWords(100000100) == [Digit(1), Place(6), Et, Baht, Even]
  {
    assert 100000100 / 100 == 1000001 && 100000100 % 100 == 0;
    MillionAndOneBaht();
  }

  lemma MillionAndOneBaht()
    ensures BahtWords(1000001) == [Digit(1), Place(6), Et, Baht]
  {
    var ds := MillionAndOneDigits();
    BahtWordsOverMillion(1000001);
    var m, r := ds[..|ds| - 6], ds[|ds| - 6..];
    assert m == [1] && r == [0, 0, 0, 0, 0, 1];
    assert NumWords(m) == [Digit(1)];
    OneAfterFiveZeros();
    FourWords(NumWords(m), NumWords(r), Digit(1), Place(6), Et, Baht);
  }

  lemma FourWords(a: seq<Word>, b: seq<Word>, w: Word, x: Word, y: Word, z: Word)
    requires a == [w] && b == [y]
    ensures a + [x] + b + [z] == [w, x, y, z]
  {
  }

  lemma BahtWordsOverMillion(baht: nat)
    requires 0 < baht < BahtLimit && 6 < |DecimalDigits(baht)| <= 13
    ensures var ds := DecimalDigits(baht);
            BahtWords(baht) == NumWords(ds[..|ds| - 6]) + [Place(6)] + NumWords(ds[|ds| - 6..]) + [Baht]
  {
  }

  lemma MillionAndOneDigits() returns (ds: seq<nat>)
    ensures ds == DecimalDigits(1000001) == [1, 0, 0, 0, 0, 0, 1]
  {
    assert DecimalDigits(1) == [1];
    assert DecimalDigits(10) == [1, 0];
    assert DecimalDigits(100) == [1, 0, 0];
    assert DecimalDigits(1000) == [1, 0, 0, 0];
    assert DecimalDigits(10000) == [1, 0, 0, 0, 0];
    assert DecimalDigits(100000) == [1, 0, 0, 0, 0, 0];
    ds := DecimalDigits(1000001);
  }

  /** A trailing one after zeros is read เอ็ด. */
  lemma OneAfterFiveZeros()
    ensures NumWords([0, 0, 0, 0, 0, 1]) == [Et]
  {
    assert WordsTo([0, 0, 0, 0, 0, 1], 5) == [];
  }
}
