/** Message text: the fixed-capacity buffer, the `%d` formatting used by the
    *_FMT throws, and the suffix the system-error throws append. */
module Messages {
  import opened Sequences

  /** The text a buffer of `capacity` characters keeps, silently and without
      failing: the longest prefix of the message that leaves room for the
      terminator. */
  function Truncate(msg: string, capacity: nat): (r: string)
    requires capacity >= 1
    ensures |r| < capacity && r <= msg
    ensures |msg| < capacity ==> r == msg
    ensures |msg| >= capacity ==> |r| == capacity - 1
  {
    if |msg| < capacity then msg else msg[..capacity - 1]
  }

  /** Storing a stored message again changes nothing. */
  lemma TruncateIdempotent(msg: string, capacity: nat)
    requires capacity >= 1
    ensures Truncate(Truncate(msg, capacity), capacity) == Truncate(msg, capacity)
  {
  }

  function DigitChar(d: nat): (c: char)
    requires d < 10
    ensures IsDigit(c) && DigitValue(c) == d
  {
    ('0' as int + d) as char
  }

  predicate IsDigit(c: char)
  {
    '0' <= c <= '9'
  }

  function DigitValue(c: char): nat
    requires IsDigit(c)
  {
    (c as int - '0' as int) as nat
  }

  /** Decimal rendering of a natural number, most significant digit first. */
  function NatToDecimal(n: nat): (r: string)
    ensures 1 <= |r| && AllDigits(r)
    decreases n
  {
    if n < 10 then [DigitChar(n)] else NatToDecimal(n / 10) + [DigitChar(n % 10)]
  }

  /** Decimal rendering of an integer, as `%d` prints it. */
  function IntToDecimal(i: int): string
  {
    if i < 0 then "-" + NatToDecimal(-i) else NatToDecimal(i)
  }

  predicate AllDigits(s: string)
  {
    forall k :: 0 <= k < |s| ==> IsDigit(s[k])
  }

  /** The value of a string of decimal digits. */
  function DecimalValue(s: string): nat
    requires AllDigits(s)
  {
    if s == [] then 0 else DecimalValue(s[..|s| - 1]) * 10 + DigitValue(s[|s| - 1])
  }

  /** The rendering is made of digits and reads back as the number. */
  lemma {:induction false} DecimalRoundTrip(n: nat)
    ensures DecimalValue(NatToDecimal(n)) == n
  {
    if n >= 10 {
      DecimalRoundTrip(n / 10);
      var s := NatToDecimal(n);
      assert s == NatToDecimal(n / 10) + [DigitChar(n % 10)];
      assert s[..|s| - 1] == NatToDecimal(n / 10);
      assert n == (n / 10) * 10 + n % 10;
    }
  }

  /** printf restricted to `%d`: each `%d` takes the next argument; text
      around the directives is copied. */
  function FormatD(fmt: string, args: seq<int>): string
    decreases |fmt|
  {
    if fmt == [] then []
    else if |fmt| >= 2 && fmt[0] == '%' && fmt[1] == 'd' && |args| > 0 then
      IntToDecimal(args[0]) + FormatD(fmt[2..], args[1..])
    else [fmt[0]] + FormatD(fmt[1..], args)
  }

  /** A format without directives is copied unchanged. */
  lemma {:induction false} FormatPlain(fmt: string, args: seq<int>)
    requires '%' !in fmt
    ensures FormatD(fmt, args) == fmt
  {
    if fmt != [] {
      assert fmt[0] != '%';
      FormatPlain(fmt[1..], args);
    }
  }

  /** Plain text in front of a format is copied and the rest is formatted
      with the same arguments. */
  lemma {:induction false} FormatPlainPrefix(text: string, rest: string, args: seq<int>)
    requires '%' !in text
    ensures FormatD(text + rest, args) == text + FormatD(rest, args)
  {
    if text != [] {
      var fmt := text + rest;
      assert fmt[0] == text[0];
      assert fmt[1..] == text[1..] + rest;
      assert '%' !in text[1..];
      FormatPlainPrefix(text[1..], rest, args);
      assert text == [text[0]] + text[1..];
    } else {
      assert text + rest == rest;
    }
  }

  /** Plain text followed by one `%d` renders the text and then the argument. */
  lemma FormatOneDirective(text: string, arg: int)
    requires '%' !in text
    ensures FormatD(text + "%d", [arg]) == text + IntToDecimal(arg)
  {
    FormatPlainPrefix(text, "%d", [arg]);
    assert FormatD("%d", [arg]) == IntToDecimal(arg) + FormatD("", []);
  }

  /** The message of a system-error throw: the composed text, then
      ": [errno] description" when the captured errno is not zero. */
  function SysErrorMessage(msg: string, errno: int, description: string): string
  {
    if errno == 0 then msg else msg + (": [" + (IntToDecimal(errno) + ("] " + description)))
  }

  /** The message is left bare exactly when errno is zero; otherwise it keeps
      the text in front and carries the errno in brackets, in decimal. */
  lemma SysErrorMessageShape(msg: string, errno: int, description: string)
    ensures msg <= SysErrorMessage(msg, errno, description)
    ensures SysErrorMessage(msg, errno, description) == msg <==> errno == 0
    ensures errno > 0 ==>
      var r := SysErrorMessage(msg, errno, description);
      var digits := NatToDecimal(errno);
      r[|msg|..|msg| + 3] == ": [" &&
      r[|msg| + 3..|msg| + 3 + |digits|] == digits &&
      DecimalValue(r[|msg| + 3..|msg| + 3 + |digits|]) == errno &&
      r[|msg| + 3 + |digits|..|msg| + 5 + |digits|] == "] "
  {
    if errno != 0 {
      var digits := IntToDecimal(errno);
      var rest := "] " + description;
      var tail := ": [" + (digits + rest);
      var r := msg + tail;
      SlicePrefix(msg, tail);
      if errno > 0 {
        DecimalRoundTrip(errno);
        SliceInside(msg, tail, 0, 3);
        SlicePrefix(": [", digits + rest);
        SliceInside(msg, tail, 3, 3 + |digits|);
        SliceInside(": [", digits + rest, 0, |digits|);
        SlicePrefix(digits, rest);
        SliceInside(msg, tail, 3 + |digits|, 5 + |digits|);
        SliceInside(": [", digits + rest, |digits|, |digits| + 2);
        SliceInside(digits, rest, 0, 2);
      }
    }
  }
}
