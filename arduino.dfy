/** The packet side of arduino.py: the line format "h,v,c,r" parse_packet
    reads, its parsing and validation (lines 31-57), and the latest-packet state one
    iteration of the polling loop updates (lines 18-19, 114-131). Strings are
    Python 2 byte strings, modelled as sequences of characters. */
module Arduino {

  datatype Option<T> = None | Some(value: T)

  /** Horizontal and vertical readings, then the two button states. */
  datatype Packet = Packet(h: int, v: int, c: int, r: int)

  /** The packet before any line has been read (arduino.py:18). */
  const INITIAL_PACKET: Packet := Packet(512, 512, 1, 0)

  /** The bytes Python 2 strips as whitespace: space, tab, line feed,
      vertical tab, form feed and carriage return. */
  predicate IsSpace(ch: char) {
    ch == ' ' || '\t' <= ch <= '\r'
  }

  predicate IsDigit(ch: char) {
    '0' <= ch <= '9'
  }

  // ---------------------------------------------------------------------
  // str.strip, str.split, str.index

  /** `s` without its leading whitespace. */
  function TrimStart(s: string): string {
    if |s| > 0 && IsSpace(s[0]) then TrimStart(s[1..]) else s
  }

  /** `s` without its trailing whitespace. */
  function TrimEnd(s: string): string {
    if |s| > 0 && IsSpace(s[|s| - 1]) then TrimEnd(s[..|s| - 1]) else s
  }

  /** str.strip() with no argument. */
  function Strip(s: string): string {
    TrimEnd(TrimStart(s))
  }

  /** TrimStart drops a prefix of whitespace and stops at the first other character. */
  lemma {:induction false} TrimStartSpec(s: string)
    ensures var r := TrimStart(s);
      && |r| <= |s| && r == s[|s| - |r|..]
      && (r == [] || !IsSpace(r[0]))
      && forall i :: 0 <= i < |s| - |r| ==> IsSpace(s[i])
  {
    if |s| > 0 && IsSpace(s[0]) {
      TrimStartSpec(s[1..]);
    }
  }

  /** TrimEnd drops a suffix of whitespace and stops at the last other character. */
  lemma {:induction false} TrimEndSpec(s: string)
    ensures var r := TrimEnd(s);
      && |r| <= |s| && r == s[..|r|]
      && (r == [] || !IsSpace(r[|r| - 1]))
      && forall i :: |r| <= i < |s| ==> IsSpace(s[i])
  {
    if |s| > 0 && IsSpace(s[|s| - 1]) {
      TrimEndSpec(s[..|s| - 1]);
    }
  }

  /** Strip keeps the part of `s` that starts after its whitespace prefix and
      ends before its whitespace suffix, and that part neither starts nor
      ends with whitespace. */
  lemma StripSpec(s: string)
    ensures var r, i := Strip(s), |s| - |TrimStart(s)|;
      && (r == [] || (!IsSpace(r[0]) && !IsSpace(r[|r| - 1])))
      && 0 <= i <= |s| - |r| && r == s[i..i + |r|]
  {
    var t := TrimStart(s);
    TrimStartSpec(s);
    TrimEndSpec(t);
    var r := TrimEnd(t);
    var i := |s| - |t|;
    assert t == s[i..];
    assert r == t[..|r|];
    assert r == s[i..i + |r|];
    if r != [] {
      assert r[0] == t[0];
    }
  }

  /** What Strip removes from either end is whitespace. */
  lemma StripDropsSpace(s: string)
    ensures var r, i := Strip(s), |s| - |TrimStart(s)|;
      && 0 <= i <= |s| - |r|
      && (forall k :: 0 <= k < i ==> IsSpace(s[k]))
      && (forall k :: i + |r| <= k < |s| ==> IsSpace(s[k]))
  {
    var t := TrimStart(s);
    TrimStartSpec(s);
    TrimEndSpec(t);
    var r := TrimEnd(t);
    var i := |s| - |t|;
    forall k | i + |r| <= k < |s|
      ensures IsSpace(s[k])
    {
      assert s[k] == t[k - i];
    }
  }

  /** Stripping a string that starts and ends with other text changes nothing. */
  lemma StripUnchanged(s: string)
    requires |s| > 0 && !IsSpace(s[0]) && !IsSpace(s[|s| - 1])
    ensures Strip(s) == s
  {
    assert TrimStart(s) == s;
  }

  /** Trailing whitespace after a string that ends in other text is all stripped. */
  lemma {:induction false} TrimEndDropsEnding(s: string, ending: string)
    requires |s| > 0 && !IsSpace(s[|s| - 1])
    requires forall i :: 0 <= i < |ending| ==> IsSpace(ending[i])
    ensures TrimEnd(s + ending) == s
    decreases |ending|
  {
    if |ending| == 0 {
      assert s + ending == s;
    } else {
      var line := s + ending;
      assert line[..|line| - 1] == s + ending[..|ending| - 1];
      TrimEndDropsEnding(s, ending[..|ending| - 1]);
    }
  }

  /** The fields joined with `sep` between neighbours (str.join). */
  function Join(fields: seq<string>, sep: char): string {
    if |fields| == 0 then ""
    else if |fields| == 1 then fields[0]
    else fields[0] + [sep] + Join(fields[1..], sep)
  }

  /** str.split(sep): always at least one field. */
  function Split(s: string, sep: char): (fields: seq<string>)
    ensures |fields| >= 1
  {
    if |s| == 0 then [""]
    else
      var rest := Split(s[1..], sep);
      if s[0] == sep then [""] + rest
      else [[s[0]] + rest[0]] + rest[1..]
  }

  /** Joining the fields of a split with the separator gives the string back. */
  lemma {:induction false} JoinSplit(s: string, sep: char)
    ensures Join(Split(s, sep), sep) == s
  {
    if |s| > 0 {
      var rest := Split(s[1..], sep);
      JoinSplit(s[1..], sep);
      if s[0] == sep {
        assert ([""] + rest)[1..] == rest;
      } else {
        var fields := [[s[0]] + rest[0]] + rest[1..];
        assert fields[1..] == rest[1..];
        if |rest| > 1 {
          assert Join(rest, sep) == rest[0] + [sep] + Join(rest[1..], sep);
        }
      }
    }
  }

  /** No field of a split holds the separator. */
  lemma {:induction false} SplitFieldsLackSeparator(s: string, sep: char)
    ensures forall f <- Split(s, sep) :: sep !in f
  {
    if |s| > 0 {
      SplitFieldsLackSeparator(s[1..], sep);
    }
  }

  /** A string without `sep` is one field. */
  lemma {:induction false} SplitNoSeparator(a: string, sep: char)
    requires sep !in a
    ensures Split(a, sep) == [a]
  {
    if |a| > 0 {
      SplitNoSeparator(a[1..], sep);
      assert [a[0]] + a[1..] == a;
    }
  }

  /** A first field without `sep`, then `sep`, then the rest. */
  lemma {:induction false} SplitFirstField(a: string, sep: char, rest: string)
    requires sep !in a
    ensures Split(a + [sep] + rest, sep) == [a] + Split(rest, sep)
  {
    var s := a + [sep] + rest;
    if |a| == 0 {
      assert s[1..] == rest;
    } else {
      assert s[1..] == a[1..] + [sep] + rest;
      SplitFirstField(a[1..], sep, rest);
      assert [s[0]] + a[1..] == a;
    }
  }

  /** Splitting undoes joining fields that do not hold the separator. */
  lemma {:induction false} SplitJoin(fields: seq<string>, sep: char)
    requires |fields| >= 1
    requires forall i :: 0 <= i < |fields| ==> sep !in fields[i]
    ensures Split(Join(fields, sep), sep) == fields
    decreases |fields|
  {
    if |fields| == 1 {
      SplitNoSeparator(fields[0], sep);
    } else {
      SplitJoin(fields[1..], sep);
      SplitFirstField(fields[0], sep, Join(fields[1..], sep));
      assert [fields[0]] + fields[1..] == fields;
    }
  }

  /** Four fields joined by `sep`. */
  lemma JoinFour(a: string, b: string, c: string, d: string, sep: char)
    ensures Join([a, b, c, d], sep) == a + [sep] + b + [sep] + c + [sep] + d
  {
    assert [a, b, c, d][1..] == [b, c, d];
    assert [b, c, d][1..] == [c, d];
    assert [c, d][1..] == [d];
    assert Join([c, d], sep) == c + [sep] + d;
    assert Join([b, c, d], sep) == b + [sep] + c + [sep] + d;
  }

  /** Where `ch` first occurs in `s` (str.index), or None when `ch in s` is false. */
  function Find(s: string, ch: char): Option<nat> {
    if |s| == 0 then None
    else if s[0] == ch then Some(0)
    else
      match Find(s[1..], ch)
      case Some(i) => Some(i + 1)
      case None => None
  }

  /** Find gives the first occurrence, and None only when there is none. */
  lemma {:induction false} FindSpec(s: string, ch: char)
    ensures Find(s, ch).Some? ==>
      var i := Find(s, ch).value;
      i < |s| && s[i] == ch && forall j :: 0 <= j < i ==> s[j] != ch
    ensures Find(s, ch).None? <==> forall j :: 0 <= j < |s| ==> s[j] != ch
  {
    if |s| > 0 && s[0] != ch {
      FindSpec(s[1..], ch);
      if Find(s, ch).None? {
        forall j | 0 <= j < |s|
          ensures s[j] != ch
        {
          if j > 0 {
            assert s[j] == s[1..][j - 1];
          }
        }
      }
    }
  }

  // ---------------------------------------------------------------------
  // int() and "%i"

  function DigitValue(ch: char): nat
    requires IsDigit(ch)
  {
    (ch as int) - ('0' as int)
  }

  function DigitChar(d: nat): (ch: char)
    requires d < 10
    ensures IsDigit(ch) && DigitValue(ch) == d
  {
    (('0' as int) + d) as char
  }

  predicate AllDigits(s: string) {
    forall i :: 0 <= i < |s| ==> IsDigit(s[i])
  }

  /** The decimal value of a digit string. */
  function DigitsValue(s: string): nat
    requires AllDigits(s)
  {
    if |s| == 0 then 0 else DigitsValue(s[..|s| - 1]) * 10 + DigitValue(s[|s| - 1])
  }

  /** Python 2 int(s) in base 10: surrounding whitespace, an optional sign
      that whitespace may follow, then one or more decimal digits; None where
      int raises ValueError. */
  function ParseInt(s: string): Option<int> {
    var t := Strip(s);
    var signed := |t| > 0 && (t[0] == '-' || t[0] == '+');
    var digits := if signed then TrimStart(t[1..]) else t;
    if |digits| > 0 && AllDigits(digits) then
      Some(if signed && t[0] == '-' then -(DigitsValue(digits) as int) else DigitsValue(digits))
    else None
  }

  /** "%i" on a natural number: its decimal digits, without leading zeros. */
  function FormatNat(n: nat): (s: string)
    ensures |s| > 0 && AllDigits(s)
    ensures DigitsValue(s) == n
  {
    if n < 10 then [DigitChar(n)]
    else
      var s := FormatNat(n / 10) + [DigitChar(n % 10)];
      assert s[..|s| - 1] == FormatNat(n / 10);
      s
  }

  /** "%i" on an integer: a minus sign before negative numbers. */
  function FormatInt(x: int): string {
    if x < 0 then "-" + FormatNat(-x) else FormatNat(x)
  }

  /** "%i" writes a minus sign or digits, starting with either and ending in a digit. */
  lemma FormatIntShape(x: int)
    ensures var s := FormatInt(x);
      && |s| > 0 && (s[0] == '-' || IsDigit(s[0])) && IsDigit(s[|s| - 1])
      && forall i :: 0 <= i < |s| ==> s[i] == '-' || IsDigit(s[i])
  {
  }

  /** int() reads back what "%i" writes. */
  lemma ParseFormatInt(x: int)
    ensures ParseInt(FormatInt(x)) == Some(x)
  {
    var s := FormatInt(x);
    FormatIntShape(x);
    StripUnchanged(s);
    if x < 0 {
      var d := FormatNat(-x);
      assert s[1..] == d;
      assert TrimStart(d) == d;
    }
  }

  // ---------------------------------------------------------------------
  // Packets

  /** A packet as "%i,%i,%i,%i" writes it: the shape parse_packet reads, as
      server.py:34 writes it. */
  function FormatPacket(p: Packet): string {
    FormatInt(p.h) + "," + FormatInt(p.v) + "," + FormatInt(p.c) + "," + FormatInt(p.r)
  }

  /** The packet of four fields, when int() accepts all four. */
  function ParseFields(a: string, b: string, c: string, d: string): Option<Packet> {
    var h, v, cv, r := ParseInt(a), ParseInt(b), ParseInt(c), ParseInt(d);
    if h.Some? && v.Some? && cv.Some? && r.Some? then Some(Packet(h.value, v.value, cv.value, r.value))
    else None
  }

  /** parse_packet (arduino.py:31-38): the ints of the first four comma
      fields of the stripped line; None where Python raises (fewer than four
      fields, or a field int() rejects). */
  function ParsePacket(line: string): Option<Packet> {
    var t := Split(Strip(line), ',');
    if |t| < 4 then None else ParseFields(t[0], t[1], t[2], t[3])
  }

  /** The packet read_packet reports for `line` (arduino.py:43-57): None for
      a line without a comma, for a line whose first comma is its first
      character, and for a line parse_packet rejects; otherwise the parsed packet. */
  function ReadOutcome(line: string): Option<Packet> {
    match Find(line, ',')
    case None => None
    case Some(ci) => if ci == 0 then None else ParsePacket(line)
  }

  /** A line without a comma, and a line whose first comma is its first
      character, are rejected. */
  lemma ReadOutcomeRejectsCommaPlacement(line: string)
    ensures (forall j :: 0 <= j < |line| ==> line[j] != ',') ==> ReadOutcome(line) == None
    ensures |line| > 0 && line[0] == ',' ==> ReadOutcome(line) == None
  {
    FindSpec(line, ',');
  }

  /** read_packet accepts exactly the lines that hold a comma, do not start
      with one, and whose stripped text has at least four comma fields, the
      first four all integers; the packet is those four integers, and any
      further fields are ignored. */
  lemma ReadOutcomeAccepts(line: string, p: Packet)
    ensures ReadOutcome(line) == Some(p) ==>
      var t := Split(Strip(line), ',');
      && (exists j :: 0 <= j < |line| && line[j] == ',') && line[0] != ','
      && |t| >= 4
      && ParseInt(t[0]) == Some(p.h) && ParseInt(t[1]) == Some(p.v)
      && ParseInt(t[2]) == Some(p.c) && ParseInt(t[3]) == Some(p.r)
    ensures
      (var t := Split(Strip(line), ',');
      && (exists j :: 0 <= j < |line| && line[j] == ',') && line[0] != ','
      && |t| >= 4
      && ParseInt(t[0]) == Some(p.h) && ParseInt(t[1]) == Some(p.v)
      && ParseInt(t[2]) == Some(p.c) && ParseInt(t[3]) == Some(p.r))
      ==> ReadOutcome(line) == Some(p)
  {
    FindSpec(line, ',');
  }

  /** Every line without four comma fields after stripping is rejected. */
  lemma ReadOutcomeRejectsShort(line: string)
    requires |Split(Strip(line), ',')| < 4
    ensures ReadOutcome(line) == None
  {
  }

  /** A formatted packet splits into the four formatted fields. */
  lemma SplitFormattedPacket(p: Packet)
    ensures Split(FormatPacket(p), ',') == [FormatInt(p.h), FormatInt(p.v), FormatInt(p.c), FormatInt(p.r)]
  {
    var fields := [FormatInt(p.h), FormatInt(p.v), FormatInt(p.c), FormatInt(p.r)];
    FormatIntShape(p.h);
    FormatIntShape(p.v);
    FormatIntShape(p.c);
    FormatIntShape(p.r);
    JoinFour(FormatInt(p.h), FormatInt(p.v), FormatInt(p.c), FormatInt(p.r), ',');
    SplitJoin(fields, ',');
  }

  /** A formatted packet starts with a sign or a digit and ends with a digit,
      so stripping leaves it unchanged, and its first comma follows the first field. */
  lemma FormattedPacketEnds(p: Packet)
    ensures var s := FormatPacket(p);
      && |s| > 0 && !IsSpace(s[0]) && !IsSpace(s[|s| - 1])
      && Strip(s) == s
      && Find(s, ',') == Some(|FormatInt(p.h)|)
  {
    var s := FormatPacket(p);
    var a := FormatInt(p.h);
    FormatIntShape(p.h);
    FormatIntShape(p.r);
    assert s[0] == a[0];
    assert s[|s| - 1] == FormatInt(p.r)[|FormatInt(p.r)| - 1];
    StripUnchanged(s);
    FindSpec(s, ',');
    assert s[|a|] == ',';
    assert forall j :: 0 <= j < |a| ==> s[j] == a[j];
  }

  /** parse_packet reads back every formatted packet. */
  lemma ParseFormattedPacket(p: Packet)
    ensures ParsePacket(FormatPacket(p)) == Some(p)
  {
    SplitFormattedPacket(p);
    FormattedPacketEnds(p);
    ParseFormatInt(p.h);
    ParseFormatInt(p.v);
    ParseFormatInt(p.c);
    ParseFormatInt(p.r);
  }

  /** Appending text after an occurrence of `ch` does not move the first one. */
  lemma {:induction false} FindPrefix(s: string, t: string, ch: char)
    requires Find(s, ch).Some?
    ensures Find(s + t, ch) == Find(s, ch)
  {
    if s[0] != ch {
      assert (s + t)[1..] == s[1..] + t;
      FindPrefix(s[1..], t, ch);
    }
  }

  /** A line ending after a formatted packet moves neither its first comma
      nor its stripped text. */
  lemma FormattedLine(p: Packet, ending: string)
    requires forall i :: 0 <= i < |ending| ==> IsSpace(ending[i])
    ensures Strip(FormatPacket(p) + ending) == FormatPacket(p)
    ensures Find(FormatPacket(p) + ending, ',') == Some(|FormatInt(p.h)|)
  {
    var s := FormatPacket(p);
    FormattedPacketEnds(p);
    TrimEndDropsEnding(s, ending);
    assert TrimStart(s + ending) == s + ending;
    FindPrefix(s, ending, ',');
  }

  /** A formatted packet, followed by whatever whitespace line ending
      readline leaves, is read back unchanged. */
  lemma ReadFormattedPacket(p: Packet, ending: string)
    requires forall i :: 0 <= i < |ending| ==> IsSpace(ending[i])
    ensures ReadOutcome(FormatPacket(p) + ending) == Some(p)
  {
    FormattedLine(p, ending);
    FormatIntShape(p.h);
    ParseFormattedPacket(p);
    assert ParsePacket(FormatPacket(p) + ending) == ParsePacket(FormatPacket(p));
  }

  /** The stored packet after one iteration of run's loop reads `line`
      (arduino.py:119-131). */
  function NextPacket(current: Packet, line: string): Packet {
    match ReadOutcome(line)
    case Some(p) => p
    case None => current
  }

  /** A good read replaces the stored packet by the packet the line holds,
      and a bad one leaves it unchanged; so a formatted line always gets
      through, and a line without a comma never does. */
  lemma NextPacketReplacesOnlyOnSuccess(current: Packet, line: string, p: Packet)
    ensures ReadOutcome(line) == Some(p) ==> NextPacket(current, line) == p
    ensures ReadOutcome(line) == None ==> NextPacket(current, line) == current
    ensures NextPacket(current, FormatPacket(p) + "\r\n") == p
    ensures (forall j :: 0 <= j < |line| ==> line[j] != ',') ==> NextPacket(current, line) == current
  {
    ReadFormattedPacket(p, "\r\n");
    ReadOutcomeRejectsCommaPlacement(line);
  }

  /** The state of the reader thread that the parsing touches. */
  class ArduinoReader {
    /** The latest good packet (arduino.py:18, 130). */
    var packet: Packet
    /** The last line read from the serial port (arduino.py:19, 41). */
    var readBuffer: string

    /** arduino.py:15-22, without the serial port, the thread and the lock. */
    constructor()
      ensures packet == INITIAL_PACKET && readBuffer == ""
    {
      packet := INITIAL_PACKET;
      readBuffer := "";
    }

    /** read_packet (arduino.py:40-57) with the line readline returned passed
        in: remembers the line, then succeeds exactly when ReadOutcome gives
        a packet, and returns that packet. */
    method ReadPacket(line: string) returns (success: bool, result: Option<Packet>)
      modifies this
      ensures readBuffer == line && packet == old(packet)
      ensures result == ReadOutcome(line)
      ensures success <==> result.Some?
    {
      readBuffer := line;
      var comma := Find(readBuffer, ',');
      if comma.None? {
        return false, None;
      }
      var ci := comma.value;
      if ci == 0 {
        return false, None;
      }
      result := ParsePacket(readBuffer);
      success := result.Some?;
    }

    /** One iteration of run's loop (arduino.py:119-131): a good read
        replaces the stored packet, a bad one leaves it as it was. */
    method PollStep(line: string)
      modifies this
      ensures readBuffer == line
      ensures packet == NextPacket(old(packet), line)
    {
      var success, result := ReadPacket(line);
      if !success {
        return;
      }
      packet := result.value;
    }
  }
}
