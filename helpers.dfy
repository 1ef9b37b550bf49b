/**
 * The formatting and id helpers: seconds as HH:MM:SS, natural numbers with comma-separated
 * thousands, and random ids over a fixed 62-character alphabet.
 */
module Helpers {
  import opened Wrappers

  // ---------------------------------------------------------------------------------------
  // Decimal strings
  // ---------------------------------------------------------------------------------------

  predicate IsDigit(c: char) {
    '0' <= c <= '9'
  }

  predicate AllDigits(s: string) {
    forall i :: 0 <= i < |s| ==> IsDigit(s[i])
  }

  function DigitChar(d: nat): (c: char)
    requires d < 10
    ensures IsDigit(c) && c as int - '0' as int == d
  {
    ('0' as int + d) as char
  }

  /** `n.toString()` for a natural number: its decimal digits, without leading zeros. */
  function NatToString(n: nat): (s: string)
    ensures |s| >= 1 && AllDigits(s)
    ensures n >= 10 ==> s[0] != '0'
    ensures n < 10 ==> |s| == 1
    ensures n < 100 ==> |s| <= 2
    ensures n < 1000 ==> |s| <= 3
  {
    if n < 10 then [DigitChar(n)] else NatToString(n / 10) + [DigitChar(n % 10)]
  }

  /** The number a string of digits denotes (the empty string denotes 0). */
  function DecimalValue(s: string): nat
    requires AllDigits(s)
  {
    if s == [] then 0 else 10 * DecimalValue(s[..|s| - 1]) + (s[|s| - 1] as int - '0' as int)
  }

  /** Reading the decimal string back gives the number. */
  lemma {:induction false} NatToStringRoundTrip(n: nat)
    ensures DecimalValue(NatToString(n)) == n
  {
    if n >= 10 {
      NatToStringRoundTrip(n / 10);
      var s := NatToString(n);
      assert s[..|s| - 1] == NatToString(n / 10);
    }
  }

  /** A leading '0' does not change the value. */
  lemma {:induction false} LeadingZero(s: string)
    requires AllDigits(s)
    ensures AllDigits("0" + s) && DecimalValue("0" + s) == DecimalValue(s)
  {
    if s != [] {
      LeadingZero(s[..|s| - 1]);
      assert ("0" + s)[..|"0" + s| - 1] == "0" + s[..|s| - 1];
    }
  }

  // ---------------------------------------------------------------------------------------
  // formatTime
  // ---------------------------------------------------------------------------------------

  /** `s.padStart(2, '0')`. */
  function Pad2(s: string): (p: string)
    ensures |s| >= 2 ==> p == s
    ensures |s| < 2 ==> |p| == 2 && p[2 - |s|..] == s && forall i :: 0 <= i < 2 - |s| ==> p[i] == '0'
    decreases 2 - |s|
  {
    if |s| >= 2 then s else Pad2("0" + s)
  }

  /** Padding a decimal string keeps its digits and its value. */
  lemma {:induction false} Pad2Value(s: string)
    requires AllDigits(s)
    ensures AllDigits(Pad2(s)) && DecimalValue(Pad2(s)) == DecimalValue(s)
    decreases 2 - |s|
  {
    if |s| < 2 {
      LeadingZero(s);
      Pad2Value("0" + s);
    }
  }

  /** The hours, minutes and seconds fields of formatTime. */
  function Hours(seconds: nat): (h: nat)
    ensures h * 3600 <= seconds < h * 3600 + 3600
  {
    seconds / 3600
  }

  function Minutes(seconds: nat): (m: nat)
    ensures m < 60 && m * 60 <= seconds % 3600 < m * 60 + 60
  {
    (seconds % 3600) / 60
  }

  function Secs(seconds: nat): (s: nat)
    ensures s < 60 && (seconds - s) % 60 == 0
  {
    seconds % 60
  }

  /** The three fields decompose the input exactly, and minutes and seconds are below 60. */
  lemma Decompose(seconds: nat)
    ensures Hours(seconds) * 3600 + Minutes(seconds) * 60 + Secs(seconds) == seconds
    ensures Minutes(seconds) < 60 && Secs(seconds) < 60
  {
    DivModSplit(seconds);
  }

  /** The arithmetic behind Decompose, apart from the three field functions. */
  lemma DivModSplit(n: nat)
    ensures (n / 3600) * 3600 + ((n % 3600) / 60) * 60 + n % 60 == n
  {
    var r := n % 3600;
    assert r == (r / 60) * 60 + r % 60;
    assert r % 60 == n % 60 by {
      assert n == (n / 3600) * 60 * 60 + r;
    }
  }

  /**
   * formatTime: the three fields, each zero-padded to at least two digits, joined by ':'. The
   * minutes and seconds fields are always exactly two characters.
   */
  function FormatTime(seconds: nat): (r: string)
    ensures |r| >= 8 && r[|r| - 3] == ':' && r[|r| - 6] == ':'
    ensures r[|r| - 5..|r| - 3] == Pad2(NatToString(Minutes(seconds)))
    ensures r[|r| - 2..] == Pad2(NatToString(Secs(seconds)))
    ensures r[..|r| - 6] == Pad2(NatToString(Hours(seconds)))
  {
    var hh := Pad2(NatToString(Hours(seconds)));
    var mm := Pad2(NatToString(Minutes(seconds)));
    var ss := Pad2(NatToString(Secs(seconds)));
    FieldWidth(Hours(seconds));
    FieldWidth(Minutes(seconds));
    FieldWidth(Secs(seconds));
    JoinFields(hh, mm, ss);
    hh + ":" + mm + ":" + ss
  }

  /** A padded field has at least two characters, and exactly two below 100. */
  lemma FieldWidth(n: nat)
    ensures |Pad2(NatToString(n))| >= 2
    ensures n < 100 ==> |Pad2(NatToString(n))| == 2
  {
  }

  /** Where the fields sit in "hh:mm:ss" when the last two have two characters. */
  lemma JoinFields(hh: string, mm: string, ss: string)
    requires |hh| >= 2 && |mm| == 2 && |ss| == 2
    ensures var r := hh + ":" + mm + ":" + ss;
      && |r| >= 8 && r[|r| - 3] == ':' && r[|r| - 6] == ':'
      && r[|r| - 5..|r| - 3] == mm && r[|r| - 2..] == ss && r[..|r| - 6] == hh
  {
    var r := hh + ":" + mm + ":" + ss;
    assert r[|r| - 5..|r| - 3] == mm && r[|r| - 2..] == ss && r[..|r| - 6] == hh;
  }

  /**
   * Reading "H:MM:SS" back: the number of seconds the three colon-separated digit fields
   * denote, or none when the string does not have that shape.
   */
  function ParseTime(r: string): (t: Option<nat>)
    ensures t.Some? ==> |r| >= 8 && r[|r| - 3] == ':' && r[|r| - 6] == ':'
  {
    if |r| >= 8 && r[|r| - 3] == ':' && r[|r| - 6] == ':'
       && AllDigits(r[..|r| - 6]) && AllDigits(r[|r| - 5..|r| - 3]) && AllDigits(r[|r| - 2..])
    then Some(DecimalValue(r[..|r| - 6]) * 3600 + DecimalValue(r[|r| - 5..|r| - 3]) * 60 + DecimalValue(r[|r| - 2..]))
    else None
  }

  /** Reading the three fields back from the string recovers the number of seconds. */
  lemma FormatTimeRoundTrip(seconds: nat)
    ensures ParseTime(FormatTime(seconds)) == Some(seconds)
  {
    Decompose(seconds);
    NatToStringRoundTrip(Hours(seconds));
    NatToStringRoundTrip(Minutes(seconds));
    NatToStringRoundTrip(Secs(seconds));
    Pad2Value(NatToString(Hours(seconds)));
    Pad2Value(NatToString(Minutes(seconds)));
    Pad2Value(NatToString(Secs(seconds)));
  }

  /** The three padded fields of 412 seconds. */
  lemma FieldsOfExample()
    ensures Pad2(NatToString(Hours(412))) == "00"
    ensures Pad2(NatToString(Minutes(412))) == "06"
    ensures Pad2(NatToString(Secs(412))) == "52"
  {
    assert NatToString(0) == "0" && NatToString(6) == "6" && NatToString(52) == "52";
    assert Pad2("0") == "00" && Pad2("6") == "06";
  }

  /** 412 seconds is 6 minutes 52 seconds. */
  lemma FormatTimeExample()
    ensures FormatTime(412) == "00:06:52"
  {
    FieldsOfExample();
  }

  // ---------------------------------------------------------------------------------------
  // formatNumber
  // ---------------------------------------------------------------------------------------

  /**
   * The digit string with a ',' before every position that is not the first and is followed by
   * a positive multiple of three digits.
   */
  function Group(d: string): (r: string)
    ensures |d| <= 3 ==> r == d
  {
    if |d| <= 3 then d else Group(d[..|d| - 3]) + "," + d[|d| - 3..]
  }

  /** `num.toString().replace(/\B(?=(\d{3})+(?!\d))/g, ',')` for a natural number. */
  function FormatNumber(n: nat): (r: string)
    ensures n < 1000 ==> r == NatToString(n)
  {
    Group(NatToString(n))
  }

  /** The string with every ',' removed. */
  function RemoveCommas(s: string): (r: string)
    ensures forall i :: 0 <= i < |r| ==> r[i] != ','
  {
    if s == [] then [] else RemoveCommas(s[..|s| - 1]) + (if s[|s| - 1] == ',' then [] else [s[|s| - 1]])
  }

  lemma {:induction false} RemoveCommasAppend(a: string, b: string)
    ensures RemoveCommas(a + b) == RemoveCommas(a) + RemoveCommas(b)
  {
    if b == [] {
      assert a + b == a;
    } else {
      RemoveCommasAppend(a, b[..|b| - 1]);
      assert (a + b)[..|a + b| - 1] == a + b[..|b| - 1];
    }
  }

  lemma {:induction false} RemoveCommasOfDigits(d: string)
    requires AllDigits(d)
    ensures RemoveCommas(d) == d
  {
    if d != [] {
      RemoveCommasOfDigits(d[..|d| - 1]);
    }
  }

  /** Both parts of a digit string split at k are digit strings, and they make it up again. */
  lemma SplitDigits(d: string, k: nat)
    requires AllDigits(d) && k <= |d|
    ensures AllDigits(d[..k]) && AllDigits(d[k..]) && d[..k] + d[k..] == d
  {
    assert forall i :: 0 <= i < k ==> d[..k][i] == d[i];
    assert forall i :: 0 <= i < |d| - k ==> d[k..][i] == d[k + i];
  }

  lemma CommaVanishes()
    ensures RemoveCommas(",") == []
  {
    assert ","[..0] == [];
  }

  /** Removing the commas from a grouped digit string gives the digits back. */
  lemma {:induction false} GroupRemoveCommas(d: string)
    requires AllDigits(d)
    ensures RemoveCommas(Group(d)) == d
  {
    if |d| <= 3 {
      RemoveCommasOfDigits(d);
    } else {
      var head, tail := d[..|d| - 3], d[|d| - 3..];
      SplitDigits(d, |d| - 3);
      var g := Group(head);
      GroupRemoveCommas(head);
      RemoveCommasOfDigits(tail);
      RemoveCommasAppend(g + ",", tail);
      RemoveCommasAppend(g, ",");
      CommaVanishes();
      calc {
        RemoveCommas(Group(d));
        RemoveCommas(g + "," + tail);
        RemoveCommas(g + ",") + RemoveCommas(tail);
        RemoveCommas(g) + RemoveCommas(",") + RemoveCommas(tail);
        head + [] + tail;
        { assert head + [] == head; }
        d;
      }
    }
  }

  /**
   * Shape of a grouped digit string: a ',' stands exactly at the positions followed by a
   * multiple of 4 characters (one comma plus three digits per group), never first or last;
   * every other character is a digit. The length is never a multiple of 4, so the leading group
   * has one to three digits.
   */
  lemma {:induction false} GroupShape(d: string)
    requires AllDigits(d) && |d| >= 1
    ensures |Group(d)| >= 1 && |Group(d)| % 4 != 0
    ensures forall j :: 0 <= j < |Group(d)| ==>
      (Group(d)[j] == ',' <==> j > 0 && (|Group(d)| - j) % 4 == 0)
    ensures forall j :: 0 <= j < |Group(d)| ==> Group(d)[j] == ',' || IsDigit(Group(d)[j])
  {
    if |d| > 3 {
      var head, tail := d[..|d| - 3], d[|d| - 3..];
      GroupShape(head);
      assert Group(d) == Group(head) + "," + tail;
      GroupedAppend(Group(head), tail);
    }
  }

  /** The shape GroupShape states, for one string. */
  ghost predicate Grouped(r: string) {
    && |r| >= 1 && |r| % 4 != 0
    && (forall j :: 0 <= j < |r| ==> (r[j] == ',' <==> j > 0 && (|r| - j) % 4 == 0))
    && (forall j :: 0 <= j < |r| ==> r[j] == ',' || IsDigit(r[j]))
  }

  /** Appending a comma and three digits to a grouped string keeps it grouped. */
  lemma GroupedAppend(g: string, tail: string)
    requires Grouped(g) && |tail| == 3 && AllDigits(tail)
    ensures Grouped(g + "," + tail)
  {
    var r := g + "," + tail;
    forall j | 0 <= j < |r|
      ensures (r[j] == ',' <==> j > 0 && (|r| - j) % 4 == 0)
      ensures r[j] == ',' || IsDigit(r[j])
    {
      if j < |g| {
        assert r[j] == g[j];
        assert (|r| - j) % 4 == (|g| - j) % 4;
      } else if j == |g| {
        assert r[j] == ',';
      } else {
        assert r[j] == tail[j - |g| - 1];
      }
    }
  }

  /** formatNumber's output, read without its commas, is the decimal string of the number. */
  lemma FormatNumberDigits(n: nat)
    ensures RemoveCommas(FormatNumber(n)) == NatToString(n)
    ensures |FormatNumber(n)| % 4 != 0
    ensures forall j :: 0 <= j < |FormatNumber(n)| ==>
      (FormatNumber(n)[j] == ',' <==> j > 0 && (|FormatNumber(n)| - j) % 4 == 0)
  {
    GroupRemoveCommas(NatToString(n));
    GroupShape(NatToString(n));
  }

  /** The decimal string of one and a half million. */
  lemma NatToStringExample()
    ensures NatToString(1500000) == "1500000"
  {
    assert NatToString(15) == "15";
    assert NatToString(1500) == "1500";
    assert NatToString(150000) == "150000";
  }

  /** Grouping seven digits puts a comma after the first and after the fourth. */
  lemma GroupExample()
    ensures Group("1500000") == "1,500,000"
  {
    var d := "1500000";
    assert d[..4] == "1500" && d[4..] == "000";
    assert "1500"[..1] == "1" && "1500"[1..] == "500";
    assert Group("1500") == "1,500";
  }

  /** One and a half million, grouped. */
  lemma FormatNumberExample()
    ensures FormatNumber(1500000) == "1,500,000"
  {
    NatToStringExample();
    GroupExample();
  }

  // ---------------------------------------------------------------------------------------
  // generateId
  // ---------------------------------------------------------------------------------------

  /** The alphabet generateId draws from. */
  const Alphabet: string := "ABCDEFGHIJKLMNOPQRSTUVWXYZabcdefghijklmnopqrstuvwxyz0123456789"

  lemma AlphabetSize()
    ensures |Alphabet| == 62
  {
  }

  /** `Math.floor(random * chars.length)` for a random value in [0, 1). */
  function CharIndex(random: real): (i: nat)
    requires 0.0 <= random < 1.0
    ensures i < |Alphabet|
  {
    (random * |Alphabet| as real).Floor
  }

  /**
   * generateId(length): `length` characters, the i-th being the alphabet letter that the i-th
   * random value in [0, 1) selects. `randoms` stands for the successive Math.random() values.
   */
  method GenerateId(length: nat, randoms: seq<real>) returns (result: string)
    requires |randoms| >= length
    requires forall i :: 0 <= i < |randoms| ==> 0.0 <= randoms[i] < 1.0
    ensures |result| == length
    ensures forall i :: 0 <= i < length ==> result[i] == Alphabet[CharIndex(randoms[i])]
    ensures forall i :: 0 <= i < length ==> result[i] in Alphabet
  {
    result := "";
    for i := 0 to length
      invariant |result| == i
      invariant forall j :: 0 <= j < i ==> result[j] == Alphabet[CharIndex(randoms[j])]
    {
      result := result + [Alphabet[CharIndex(randoms[i])]];
    }
  }

  /** generateId(): the default length of 8. */
  method GenerateDefaultId(randoms: seq<real>) returns (result: string)
    requires |randoms| >= 8
    requires forall i :: 0 <= i < |randoms| ==> 0.0 <= randoms[i] < 1.0
    ensures |result| == 8
    ensures forall i :: 0 <= i < 8 ==> result[i] == Alphabet[CharIndex(randoms[i])]
  {
    result := GenerateId(8, randoms);
  }
}
