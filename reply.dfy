/** The warning text the bot pushes into a group after an unsend, and the mention span
    inside it (api.py, lines 66-93). Lengths and offsets are counted in code points, as
    Python's `len` counts them. */
module Reply {
  import opened Wrappers

  /* ---------------- display name ---------------- */

  /** The name shown for `userId`: the profile's display name when the profile lookup
      succeeded, otherwise the placeholder `<@userId>`. */
  function DisplayName(userId: string, profile: Option<string>): (r: string)
    ensures profile.Some? ==> r == profile.value
    ensures profile.None? ==> |r| == |userId| + 3 && r[..2] == "<@" && r[2..|r| - 1] == userId && r[|r| - 1] == '>'
  {
    match profile
    case Some(name) => name
    case None => "<@" + userId + ">"
  }

  /** Two users whose profile lookups both failed get different placeholders. */
  lemma FallbackNameIsInjective(u1: string, u2: string)
    requires DisplayName(u1, None) == DisplayName(u2, None)
    ensures u1 == u2
  {
  }

  /* ---------------- decimal rendering of the count (Python's str(int)) ---------------- */

  predicate IsDigit(c: char) { '0' <= c <= '9' }

  function DigitValue(c: char): (d: nat)
    requires IsDigit(c)
    ensures d < 10
  {
    (c as int) - ('0' as int)
  }

  function DigitChar(d: nat): (c: char)
    requires d < 10
    ensures IsDigit(c) && DigitValue(c) == d
  {
    (('0' as int) + d) as char
  }

  predicate AllDigits(s: string) { forall i :: 0 <= i < |s| ==> IsDigit(s[i]) }

  /** A decimal numeral as `str` prints a non-negative int: at least one digit and
      no leading zero unless the numeral is "0" itself. */
  predicate IsCanonical(s: string)
  {
    |s| >= 1 && AllDigits(s) && (s[0] == '0' ==> |s| == 1)
  }

  /** The number a string of decimal digits denotes. */
  function Value(s: string): nat
    requires AllDigits(s)
  {
    if s == [] then 0 else 10 * Value(s[..|s| - 1]) + DigitValue(s[|s| - 1])
  }

  /** The decimal numeral of `n`. */
  function Decimal(n: nat): string
    decreases n
  {
    if n < 10 then [DigitChar(n)] else Decimal(n / 10) + [DigitChar(n % 10)]
  }

  /** The numeral has the form `str` gives it: digits only, no leading zero, and a
      single digit exactly for the numbers below ten. */
  lemma {:induction false} DecimalIsCanonical(n: nat)
    ensures IsCanonical(Decimal(n))
    ensures Decimal(n)[0] == '0' <==> n == 0
    ensures |Decimal(n)| == 1 <==> n < 10
    decreases n
  {
    if n >= 10 {
      DecimalIsCanonical(n / 10);
      assert Decimal(n)[0] == Decimal(n / 10)[0];
    }
  }

  /** Reading the numeral back gives the number. */
  lemma {:induction false} ValueOfDecimal(n: nat)
    ensures AllDigits(Decimal(n))
    ensures Value(Decimal(n)) == n
    decreases n
  {
    DecimalIsCanonical(n);
    if n >= 10 {
      var r := Decimal(n);
      assert r[..|r| - 1] == Decimal(n / 10);
      ValueOfDecimal(n / 10);
    }
  }

  lemma {:induction false} ValueOfLeadingNonZero(s: string)
    requires |s| >= 1 && AllDigits(s) && s[0] != '0'
    ensures Value(s) >= 1
    decreases |s|
  {
    if |s| > 1 {
      ValueOfLeadingNonZero(s[..|s| - 1]);
    }
  }

  /** Every canonical numeral is the numeral of the number it denotes: `Decimal` is a
      bijection between the naturals and the canonical numerals. */
  lemma {:induction false} DecimalOfValue(s: string)
    requires IsCanonical(s)
    ensures Decimal(Value(s)) == s
    decreases |s|
  {
    var last := DigitValue(s[|s| - 1]);
    if |s| == 1 {
      assert Value(s) == last;
      assert [DigitChar(last)] == s;
    } else {
      var p := s[..|s| - 1];
      assert p[0] == s[0];
      ValueOfLeadingNonZero(p);
      DecimalOfValue(p);
      DecimalIsCanonical(Value(p));
      var v := Value(s);
      assert v == 10 * Value(p) + last;
      assert v / 10 == Value(p) && v % 10 == last;
      assert s == p + [s[|s| - 1]];
    }
  }

  /* ---------------- the reply ---------------- */

  /** The text before the name in the opening quote. */
  const Opening: string := "用戶「"
  /** Between the name in the opening quote and the recovered text. */
  const AfterName: string := "」剛剛收回了一則訊息：\n「"
  /** Between the recovered text and the mention; the sign is U+26A0 followed by the
      emoji variation selector U+FE0F. */
  const BeforeMention: string := "」\n⚠\U{FE0F} "
  /** Between the mention and the count. */
  const BeforeCount: string := " 本週你已收回第 "
  /** After the count. */
  const Closing: string := " 次訊息，請注意！"

  /** The part of the reply that precedes the mention (`pre_text`). */
  function PreText(name: string, text: string): string
  {
    Opening + name + AfterName + text + BeforeMention
  }

  /** A text message with one mention of `length` code points starting at `index`. */
  datatype Message = Message(text: string, index: nat, length: nat)

  /** The reply for an unsend by a user shown as `name`, who recalled `text`, this being
      the `count`-th recall of the week. */
  function BuildReply(name: string, text: string, count: nat): Message
  {
    var pre := PreText(name, text);
    Message(pre + name + BeforeCount + Decimal(count) + Closing, |pre|, |name|)
  }

  /** Offsets in a five-part concatenation `a + b + c + d + e`: the first part is its
      prefix, and the second and fourth parts sit at the sums of the lengths before them. */
  lemma Parts(a: string, b: string, c: string, d: string, e: string)
    ensures var s := a + b + c + d + e;
            var i := |a| + |b| + |c|;
            && |s| == i + |d| + |e|
            && s[..|a|] == a
            && s[|a|..|a| + |b|] == b
            && s[i..i + |d|] == d
  {
    var s := a + b + c + d + e;
    var i := |a| + |b| + |c|;
    assert s[..|a|] == a;
    assert s[|a|..|a| + |b|] == b;
    assert s[i..i + |d|] == d;
  }

  /** Where things sit in the reply: it starts with the pre-text; the mention starts
      right after it and spans exactly the display name; the name also stands in the
      opening quote and the recalled text in the second one; the count's numeral follows
      the mention. */
  lemma ReplyLayout(name: string, text: string, count: nat)
    ensures var r := BuildReply(name, text, count);
            var at := r.index + r.length + |BeforeCount|;
            var t := |Opening| + |name| + |AfterName|;
            && r.index == t + |text| + |BeforeMention|
            && r.length == |name|
            && |r.text| == at + |Decimal(count)| + |Closing|
            && r.text[..r.index] == PreText(name, text)
            && r.text[r.index..r.index + r.length] == name
            && r.text[|Opening|..|Opening| + |name|] == name
            && r.text[t..t + |text|] == text
            && r.text[at..at + |Decimal(count)|] == Decimal(count)
  {
    var r := BuildReply(name, text, count);
    var pre := PreText(name, text);
    var t := |Opening| + |name| + |AfterName|;
    Parts(pre, name, BeforeCount, Decimal(count), Closing);
    Parts(Opening, name, AfterName, text, BeforeMention);
    assert r.text[..|pre|] == pre;
    assert r.text[|Opening|..|Opening| + |name|] == pre[|Opening|..|Opening| + |name|];
    assert r.text[t..t + |text|] == pre[t..t + |text|];
  }

  /** The count can be read back from the reply: the digits after the mention denote it. */
  lemma CountReadsBack(name: string, text: string, count: nat)
    ensures var r := BuildReply(name, text, count);
            var at := r.index + r.length + |BeforeCount|;
            var digits := r.text[at..at + |Decimal(count)|];
            AllDigits(digits) && Value(digits) == count
  {
    ReplyLayout(name, text, count);
    ValueOfDecimal(count);
  }
}
