/**
 * The text the controller exchanges over its serial link: integers in
 * decimal, Python's str.split, the status line it sends, and the command
 * lines it accepts.
 */
module Text {
  import opened Wrappers
  import opened Catalog

  predicate IsDigit(c: char)
  {
    '0' <= c <= '9'
  }

  predicate AllDigits(s: string)
  {
    forall k | 0 <= k < |s| :: IsDigit(s[k])
  }

  function DigitChar(d: int): (c: char)
    requires 0 <= d < 10
    ensures IsDigit(c)
  {
    (('0' as int) + d) as char
  }

  /** A natural number in decimal, as Python's str() writes it: no leading zeros. */
  function NatToDecimal(n: nat): (s: string)
    ensures |s| >= 1 && AllDigits(s)
    ensures |s| > 1 ==> s[0] != '0'
    decreases n
  {
    if n < 10 then [DigitChar(n)] else NatToDecimal(n / 10) + [DigitChar(n % 10)]
  }

  /** An integer in decimal, with a leading '-' when negative. */
  function IntToDecimal(x: int): (s: string)
    ensures |s| >= 1 && ':' !in s && '\n' !in s
  {
    var digits := if x < 0 then NatToDecimal(-x) else NatToDecimal(x);
    assert IsDigit(digits[|digits| - 1]);
    if x < 0 then "-" + digits else digits
  }

  /** The value of a string of decimal digits. */
  function DecimalValue(s: string): nat
    requires AllDigits(s)
    decreases |s|
  {
    if s == [] then 0
    else DecimalValue(s[..|s| - 1]) * 10 + (s[|s| - 1] as int - '0' as int)
  }

  /** Reading back what NatToDecimal wrote gives the number. */
  lemma {:induction false} NatDecimalRoundTrip(n: nat)
    ensures DecimalValue(NatToDecimal(n)) == n
    decreases n
  {
    var s := NatToDecimal(n);
    if n >= 10 {
      NatDecimalRoundTrip(n / 10);
      assert s[..|s| - 1] == NatToDecimal(n / 10);
    }
  }

  /** Reads an integer field: optional '-' followed by at least one digit. */
  function ParseDecimal(s: string): Option<int>
  {
    if |s| >= 1 && AllDigits(s) then Some(DecimalValue(s))
    else if |s| >= 2 && s[0] == '-' && AllDigits(s[1..]) then Some(0 - DecimalValue(s[1..]))
    else None
  }

  /** Every integer the controller writes reads back as itself. */
  lemma IntDecimalRoundTrip(x: int)
    ensures ParseDecimal(IntToDecimal(x)) == Some(x)
  {
    if x < 0 {
      NatDecimalRoundTrip(-x);
      var s := IntToDecimal(x);
      assert s[1..] == NatToDecimal(-x);
      assert !IsDigit(s[0]);
    } else {
      NatDecimalRoundTrip(x);
    }
  }

  /** Python's str.split(sep): the pieces between separators, empty ones included. */
  function Split(s: string, sep: char): (parts: seq<string>)
    ensures |parts| >= 1
    decreases |s|
  {
    if s == [] then [""]
    else
      var rest := Split(s[1..], sep);
      if s[0] == sep then [""] + rest else [[s[0]] + rest[0]] + rest[1..]
  }

  /** The pieces joined back with the separator between them. */
  function Join(parts: seq<string>, sep: char): string
    requires |parts| >= 1
    decreases |parts|
  {
    if |parts| == 1 then parts[0] else parts[0] + [sep] + Join(parts[1..], sep)
  }

  /** A piece without the separator splits to itself. */
  lemma {:induction false} SplitNoSeparator(a: string, sep: char)
    requires sep !in a
    ensures Split(a, sep) == [a]
    decreases |a|
  {
    if a != [] {
      assert a[0] != sep && sep !in a[1..];
      SplitNoSeparator(a[1..], sep);
      assert [a[0]] + a[1..] == a;
    }
  }

  /** Splitting stops at the first separator. */
  lemma {:induction false} SplitAtFirst(a: string, sep: char, b: string)
    requires sep !in a
    ensures Split(a + [sep] + b, sep) == [a] + Split(b, sep)
    decreases |a|
  {
    var s := a + [sep] + b;
    if a == [] {
      assert s[1..] == b;
    } else {
      assert s[1..] == a[1..] + [sep] + b;
      SplitAtFirst(a[1..], sep, b);
      assert [s[0]] + a[1..] == a;
    }
  }

  /** Splitting undoes joining when no piece holds the separator. */
  lemma {:induction false} SplitJoin(parts: seq<string>, sep: char)
    requires |parts| >= 1
    requires forall k | 0 <= k < |parts| :: sep !in parts[k]
    ensures Split(Join(parts, sep), sep) == parts
    decreases |parts|
  {
    if |parts| == 1 {
      SplitNoSeparator(parts[0], sep);
    } else {
      SplitJoin(parts[1..], sep);
      SplitAtFirst(parts[0], sep, Join(parts[1..], sep));
      assert [parts[0]] + parts[1..] == parts;
    }
  }

  /** The status line: its five fields joined by ':', then a newline. */
  function StatusLine(id: ReceiverId, index: int, mhz: int, rssi: int): (line: string)
    ensures line == "VRX:" + IdName(id) + ":" + IntToDecimal(index) + ":" + IntToDecimal(mhz) + ":"
      + IntToDecimal(rssi) + "\n"
  {
    JoinFive("VRX", IdName(id), IntToDecimal(index), IntToDecimal(mhz), IntToDecimal(rssi));
    Join(StatusFields(id, index, mhz, rssi), ':') + "\n"
  }

  lemma JoinFive(a: string, b: string, c: string, d: string, e: string)
    ensures Join([a, b, c, d, e], ':') == a + ":" + b + ":" + c + ":" + d + ":" + e
  {
    var f := [a, b, c, d, e];
    assert f[1..] == [b, c, d, e] && f[2..] == [c, d, e] && f[3..] == [d, e] && f[4..] == [e];
    assert Join([d, e], ':') == d + [':'] + e by { assert [d, e][1..] == [e]; }
    assert Join([c, d, e], ':') == c + [':'] + (d + [':'] + e) by { assert [c, d, e][1..] == [d, e]; }
    assert Join([b, c, d, e], ':') == b + [':'] + (c + [':'] + (d + [':'] + e)) by {
      assert [b, c, d, e][1..] == [c, d, e];
    }
    assert Join(f, ':') == a + [':'] + (b + [':'] + (c + [':'] + (d + [':'] + e)));
  }

  function StatusFields(id: ReceiverId, index: int, mhz: int, rssi: int): seq<string>
  {
    ["VRX", IdName(id), IntToDecimal(index), IntToDecimal(mhz), IntToDecimal(rssi)]
  }

  /** What a status line reports. */
  datatype Status = Status(id: ReceiverId, index: int, mhz: int, rssi: int)

  /** A reader of status lines, as the peer on the link would parse them. */
  function ParseStatusLine(line: string): Option<Status>
  {
    if |line| == 0 || line[|line| - 1] != '\n' then None
    else
      var f := Split(line[..|line| - 1], ':');
      if |f| != 5 || f[0] != "VRX" then None
      else match (ParseId(f[1]), ParseDecimal(f[2]), ParseDecimal(f[3]), ParseDecimal(f[4]))
        case (Some(id), Some(i), Some(m), Some(r)) => Some(Status(id, i, m, r))
        case _ => None
  }

  /** Every status line the controller sends reads back as what it reports. */
  lemma StatusRoundTrip(id: ReceiverId, index: int, mhz: int, rssi: int)
    ensures ParseStatusLine(StatusLine(id, index, mhz, rssi)) == Some(Status(id, index, mhz, rssi))
  {
    var fields := StatusFields(id, index, mhz, rssi);
    var line := StatusLine(id, index, mhz, rssi);
    assert line[..|line| - 1] == Join(fields, ':');
    assert IdName(id) == [IdName(id)[0], IdName(id)[1], IdName(id)[2], IdName(id)[3]];
    assert forall k | 0 <= k < |fields| :: ':' !in fields[k];
    SplitJoin(fields, ':');
    IntDecimalRoundTrip(index);
    IntDecimalRoundTrip(mhz);
    IntDecimalRoundTrip(rssi);
  }

  /** A remote command line, once decoded and stripped. */
  datatype Command =
    | SelectCmd(arg: string)  // SELECT_<id>: arg is the text between the first and second '_'
    | ChUp
    | ChDown
    | AutoSearch
    | Menu
    | Unrecognised

  function StartsWith(s: string, prefix: string): bool
  {
    |prefix| <= |s| && s[..|prefix|] == prefix
  }

  /** How the command thread reads a line, in the order it tests the forms. */
  function ParseCommand(line: string): Command
  {
    if StartsWith(line, "SELECT_") then
      assert line == "SELECT" + ['_'] + line[7..];
      SplitAtFirst("SELECT", '_', line[7..]);
      SelectCmd(Split(line, '_')[1])
    else if line == "CH_UP" then ChUp
    else if line == "CH_DOWN" then ChDown
    else if line == "AUTO_SEARCH" then AutoSearch
    else if line == "MENU" then Menu
    else Unrecognised
  }

  /** The line that sends a command. */
  function CommandLine(c: Command): string
  {
    match c
    case SelectCmd(arg) => "SELECT_" + arg
    case ChUp => "CH_UP"
    case ChDown => "CH_DOWN"
    case AutoSearch => "AUTO_SEARCH"
    case Menu => "MENU"
    case Unrecognised => ""
  }

  /**
   * Every command reads back as itself when its argument has no '_'; an
   * argument followed by '_' and more text reads as the argument alone.
   */
  lemma CommandRoundTrip(c: Command, tail: string)
    requires c.SelectCmd? ==> '_' !in c.arg
    ensures ParseCommand(CommandLine(c)) == c
    ensures c.SelectCmd? ==> ParseCommand(CommandLine(c) + "_" + tail) == c
  {
    if c.SelectCmd? {
      var line := CommandLine(c);
      assert line == "SELECT" + ['_'] + c.arg;
      SplitAtFirst("SELECT", '_', c.arg);
      SplitNoSeparator(c.arg, '_');
      var longer := line + "_" + tail;
      assert longer == "SELECT" + ['_'] + (c.arg + ['_'] + tail);
      assert longer[..7] == "SELECT_";
      SplitAtFirst("SELECT", '_', c.arg + ['_'] + tail);
      SplitAtFirst(c.arg, '_', tail);
    }
  }
}
