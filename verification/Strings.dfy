// The bounded formatter and the decimal parser of base/rtl/string.c. A C string is
// the sequence of its characters before the terminating null.

module Strings {
  import opened Words

  const LONG_MIN: int := -0x8000_0000

  // ---------------------------------------------------------------------------
  // The texts that are printed
  // ---------------------------------------------------------------------------

  function Digit(d: nat): char
    requires d < 16
  {
    if d < 10 then ('0' as int + d) as char else ('A' as int + d - 10) as char
  }

  function Decimal(n: nat): (s: string)
    ensures s != []
  {
    (if n / 10 != 0 then Decimal(n / 10) else []) + [Digit(n % 10)]
  }

  function Hexadecimal(n: nat): (s: string)
    ensures s != []
  {
    (if n / 16 != 0 then Hexadecimal(n / 16) else []) + [Digit(n % 16)]
  }

  // The number that hexadecimal digits stand for.
  function Base16(s: string): int {
    if s == [] then 0
    else
      16 * Base16(s[..|s| - 1]) + DigitValue(s[|s| - 1])
  }

  function DigitValue(c: char): int {
    if c <= '9' then c as int - '0' as int else c as int - 'A' as int + 10
  }

  lemma {:induction false} DigitStandsFor(d: nat)
    requires d < 16
    ensures DigitValue(Digit(d)) == d && (d > 0 ==> Digit(d) != '0')
    ensures IsDigit(Digit(d)) || 'A' <= Digit(d) <= 'F'
  {
  }

  lemma {:induction false} HexadecimalStandsFor(n: nat)
    ensures Base16(Hexadecimal(n)) == n
    ensures forall i :: 0 <= i < |Hexadecimal(n)| ==> IsDigit(Hexadecimal(n)[i]) || 'A' <= Hexadecimal(n)[i] <= 'F'
    ensures n > 0 ==> Hexadecimal(n)[0] != '0'
  {
    hide Digit, DigitValue;
    var front := if n / 16 != 0 then Hexadecimal(n / 16) else [];
    DigitStandsFor(n % 16);
    assert Hexadecimal(n)[..|front|] == front;
    if n / 16 != 0 {
      HexadecimalStandsFor(n / 16);
    }
  }

  // The text of a signed number.
  function Signed(n: int): string {
    if n < 0 then ['-'] + Decimal(-n) else Decimal(n)
  }

  // LONG arithmetic: negation wraps around, division truncates.
  function Negate(n: int): int {
    if n == LONG_MIN then n else -n
  }

  function Quotient(n: int): int {
    if n < 0 then -(-n / 10) else n / 10
  }

  function Remainder(n: int): (r: int)
    ensures -9 <= r <= 9
  {
    if n < 0 then -(-n % 10) else n % 10
  }

  // What _snprintlong prints for n.
  function LongText(n: int): string
    requires LONG_MIN <= n < -LONG_MIN
    decreases if n < 0 then 1 - n else n
  {
    var m := if n < 0 then Negate(n) else n;
    (if n < 0 then ['-'] else []) + (if Quotient(m) != 0 then LongText(Quotient(m)) else [])
    + [('0' as int + Remainder(m)) as char]
  }

  lemma {:induction false} LongTextPositive(n: nat)
    requires n < -LONG_MIN
    ensures LongText(n) == Decimal(n)
  {
    if n / 10 != 0 {
      LongTextPositive(n / 10);
    }
  }

  // The number is printed correctly unless it is the least LONG, whose negation is
  // itself.
  lemma {:induction false} LongTextIsSigned(n: int)
    requires LONG_MIN <= n < -LONG_MIN
    ensures LongText(n) == Signed(n) <==> n != LONG_MIN
  {
    if n == LONG_MIN {
      LeastLongText();
    } else if n < 0 {
      LongTextPositive(-n);
      assert LongText(n) == ['-'] + LongText(-n);
    } else {
      LongTextPositive(n);
    }
  }

  predicate IsDigit(c: char) { '0' <= c <= '9' }

  lemma {:induction false} DecimalDigits(n: nat)
    ensures forall i :: 0 <= i < |Decimal(n)| ==> IsDigit(Decimal(n)[i])
  {
    if n / 10 != 0 {
      DecimalDigits(n / 10);
    }
  }

  // ---------------------------------------------------------------------------
  // The output buffer
  // ---------------------------------------------------------------------------

  // A buffer, the place of the next character, and how many more may be written.
  datatype Tape = Tape(text: seq<char>, at: nat, room: nat)

  // x with s written over it from i on.
  function Overwrite(x: seq<char>, i: nat, s: string): (y: seq<char>)
    requires i + |s| <= |x|
    ensures |y| == |x|
    ensures forall k :: 0 <= k < |x| ==> y[k] == if i <= k < i + |s| then s[k - i] else x[k]
  {
    x[..i] + s + x[i + |s|..]
  }

  lemma {:induction false} OverwriteTwice(x: seq<char>, i: nat, a: string, b: string)
    requires i + |a| + |b| <= |x|
    ensures Overwrite(Overwrite(x, i, a), i + |a|, b) == Overwrite(x, i, a + b)
  {
    hide Overwrite;
  }

  // s is written as far as there is room.
  function Put(t: Tape, s: string): (r: Tape)
    requires t.at + t.room <= |t.text|
    ensures r.at + r.room == t.at + t.room && |r.text| == |t.text|
  {
    var n := if |s| <= t.room then |s| else t.room;
    Tape(Overwrite(t.text, t.at, s[..n]), t.at + n, t.room - n)
  }

  // Writing one text after the other is writing both at once, even when the room
  // ends midway.
  lemma {:induction false} PutPut(t: Tape, a: string, b: string)
    requires t.at + t.room <= |t.text|
    ensures Put(Put(t, a), b) == Put(t, a + b)
  {
    hide Overwrite;
    var x := Put(t, a);
    var n := x.at - t.at;
    var k := if |b| <= x.room then |b| else x.room;
    assert (a + b)[..n + k] == a[..n] + b[..k];
    OverwriteTwice(t.text, t.at, a[..n], b[..k]);
  }

  lemma {:induction false} PutNothing(t: Tape)
    requires t.at + t.room <= |t.text|
    ensures Put(t, []) == t
  {
  }

  class Output {
    const buffer: array<char>
    var cp: nat              // str
    var size: nat            // availablesize

    ghost predicate Fits()
      reads this
    {
      cp + size <= buffer.Length
    }

    ghost function T(): Tape
      reads this, buffer
    {
      Tape(buffer[..], cp, size)
    }

    constructor (buffer: array<char>, size: nat)
      requires size <= buffer.Length
      ensures this.buffer == buffer && Fits() && T() == Tape(buffer[..], 0, size)
    {
      this.buffer, cp, this.size := buffer, 0, size;
    }

    // _snprintchar
    method PrintChar(c: char) returns (length: nat)
      requires Fits()
      modifies this, buffer
      ensures Fits() && T() == Put(old(T()), [c]) && length == 1
    {
      if size > 0 {
        buffer[cp] := c;
        cp := cp + 1;
        size := size - 1;
      }
      return 1;
    }

    // _snprintstring
    method PrintString(s: string) returns (length: nat)
      requires Fits()
      modifies this, buffer
      ensures Fits() && T() == Put(old(T()), s) && length == |s|
    {
      length := 0;
      PutNothing(T());
      while length < |s|
        invariant length <= |s| && Fits() && T() == Put(old(T()), s[..length])
      {
        PutPut(old(T()), s[..length], [s[length]]);
        assert s[..length] + [s[length]] == s[..length + 1];
        var n := PrintChar(s[length]);
        length := length + n;
      }
      assert s[..length] == s;
    }

    // _snprintlong
    method PrintLong(n: int) returns (length: nat)
      requires Fits() && LONG_MIN <= n < -LONG_MIN
      modifies this, buffer
      ensures Fits() && T() == Put(old(T()), LongText(n)) && length == |LongText(n)|
      decreases if n < 0 then 1 - n else n
    {
      hide Put, Decimal;
      ghost var t := T();
      ghost var done: string := [];
      PutNothing(t);
      length := 0;
      var m := n;
      if n < 0 {
        m := Negate(n);
        length := PrintChar('-');
        done := ['-'];
      }
      if Quotient(m) != 0 {
        var k := PrintLong(Quotient(m));
        length := length + k;
        PutPut(t, done, LongText(Quotient(m)));
        done := done + LongText(Quotient(m));
      }
      var c := ('0' as int + Remainder(m)) as char;
      var k := PrintChar(c);
      length := length + k;
      PutPut(t, done, [c]);
      assert LongText(n) == done + [c];
    }

    // _snprintulong
    method PrintUlong(n: nat) returns (length: nat)
      requires Fits()
      modifies this, buffer
      ensures Fits() && T() == Put(old(T()), Decimal(n)) && length == |Decimal(n)|
    {
      length := 0;
      PutNothing(T());
      ghost var front: string := [];
      if n / 10 != 0 {
        length := PrintUlong(n / 10);
        front := Decimal(n / 10);
      }
      PutPut(old(T()), front, [Digit(n % 10)]);
      var k := PrintChar(Digit(n % 10));
      length := length + k;
    }

    // _snprinthex
    method PrintHex(n: nat) returns (length: nat)
      requires Fits()
      modifies this, buffer
      ensures Fits() && T() == Put(old(T()), Hexadecimal(n)) && length == |Hexadecimal(n)|
    {
      length := 0;
      PutNothing(T());
      ghost var front: string := [];
      if n / 16 != 0 {
        length := PrintHex(n / 16);
        front := Hexadecimal(n / 16);
      }
      PutPut(old(T()), front, [Digit(n % 16)]);
      var k := PrintChar(Digit(n % 16));
      length := length + k;
    }
  }

  // ---------------------------------------------------------------------------
  // RtlFormatString
  // ---------------------------------------------------------------------------

  // An argument: a machine word, or the string that a word points to.
  datatype Arg = Word(w: nat) | Text(s: string)

  // The word taken as a LONG.
  function ToLong(w: nat): int
    requires w < WORD
  {
    if w < -LONG_MIN then w else w - WORD
  }

  predicate TakesWord(c: char) { c in {'d', 'c', 'x', 'u'} }

  // How many characters of the format the next item takes, and how many arguments.
  function Skip(format: string): (n: nat)
    requires format != []
    ensures n >= 1
  {
    if format[0] == '%' then 2 else 1
  }

  function Uses(format: string): nat
    requires format != []
  {
    if format[0] == '%' && |format| > 1 && (TakesWord(format[1]) || format[1] == 's') then 1 else 0
  }

  // The arguments are those the format asks for, perhaps with more behind them, and
  // the format does not end in a lone %.
  predicate Matches(format: string, args: seq<Arg>) {
    format == [] ||
    ((format[0] == '%' ==>
        && |format| > 1
        && (TakesWord(format[1]) ==> args != [] && args[0].Word? && args[0].w < WORD)
        && (format[1] == 's' ==> args != [] && args[0].Text?))
     && Matches(format[Skip(format)..], args[Uses(format)..]))
  }

  // The text of the first item: as it should be, or as the code makes it.
  function Item(format: string, args: seq<Arg>, ideal: bool): string
    requires format != [] && Matches(format, args)
  {
    if format[0] != '%' then [format[0]]
    else match format[1]
      case 'd' => if ideal then Signed(ToLong(args[0].w)) else LongText(ToLong(args[0].w))
      case 'c' => [(args[0].w % 256) as char]
      case 'x' => Hexadecimal(args[0].w)
      case 'u' => Decimal(args[0].w)
      case 's' => args[0].s
      case _ => ['%', format[1]]
  }

  // The whole text: as it should be, with the digits of every number, or as the
  // printing functions make it.
  function Expansion(format: string, args: seq<Arg>, ideal: bool): string
    requires Matches(format, args)
  {
    if format == [] then []
    else Item(format, args, ideal) + Expansion(format[Skip(format)..], args[Uses(format)..], ideal)
  }

  // ---------------------------------------------------------------------------
  // What a format means
  // ---------------------------------------------------------------------------

  // A piece of text with what it is made from: an ordinary character, a number in
  // one of three forms, a character in the low byte of a word, a string, or a %
  // with a character that asks for nothing.
  datatype Piece =
    | Literal(c: char)
    | Number(n: int)
    | Letter(c: char, rest: nat)
    | Hex(w: nat)
    | Unsigned(w: nat)
    | Str(s: string)
    | Pair(c: char)

  predicate Proper(p: Piece) {
    match p
    case Literal(c) => c != '%'
    case Number(n) => -0x8000_0000 <= n < 0x8000_0000
    case Letter(c, rest) => c as int < 256 && 256 * rest + c as int < 0x1_0000_0000
    case Hex(w) => w < 0x1_0000_0000
    case Unsigned(w) => w < 0x1_0000_0000
    case Str(_) => true
    case Pair(c) => c != 'd' && c != 'c' && c != 'x' && c != 'u' && c != 's'
  }

  predicate AllProper(ps: seq<Piece>) {
    forall i :: 0 <= i < |ps| ==> Proper(ps[i])
  }

  function PieceText(p: Piece): string {
    match p
    case Literal(c) => [c]
    case Number(n) => Signed(n)
    case Letter(c, _) => [c]
    case Hex(w) => Hexadecimal(w)
    case Unsigned(w) => Decimal(w)
    case Str(s) => s
    case Pair(c) => ['%', c]
  }

  function PieceFormat(p: Piece): string {
    match p
    case Literal(c) => [c]
    case Number(_) => "%d"
    case Letter(_, _) => "%c"
    case Hex(_) => "%x"
    case Unsigned(_) => "%u"
    case Str(_) => "%s"
    case Pair(c) => ['%', c]
  }

  // A negative number is passed as its two's complement.
  function PieceArgs(p: Piece): seq<Arg>
    requires Proper(p)
  {
    match p
    case Literal(_) => []
    case Number(n) => [Word(if n < 0 then 0x1_0000_0000 + n else n)]
    case Letter(c, rest) => [Word(256 * rest + c as int)]
    case Hex(w) => [Word(w)]
    case Unsigned(w) => [Word(w)]
    case Str(s) => [Text(s)]
    case Pair(_) => []
  }

  function TextOf(ps: seq<Piece>): string {
    if ps == [] then [] else PieceText(ps[0]) + TextOf(ps[1..])
  }

  function FormatOf(ps: seq<Piece>): string {
    if ps == [] then [] else PieceFormat(ps[0]) + FormatOf(ps[1..])
  }

  function ArgsOf(ps: seq<Piece>): seq<Arg>
    requires AllProper(ps)
  {
    if ps == [] then [] else PieceArgs(ps[0]) + ArgsOf(ps[1..])
  }

  // A format with its arguments expands to the text of its pieces, exactly if no
  // piece is the least LONG.
  lemma {:induction false} FormatMeans(ps: seq<Piece>, more: seq<Arg>)
    requires AllProper(ps)
    ensures Matches(FormatOf(ps), ArgsOf(ps) + more)
    ensures Expansion(FormatOf(ps), ArgsOf(ps) + more, true) == TextOf(ps)
    ensures Expansion(FormatOf(ps), ArgsOf(ps) + more, false) == TextOf(ps) <==> Number(-0x8000_0000) !in ps
  {
    MeansIdeally(ps, more);
    LeastInNone(ps);
    ExpansionIsIdeal(FormatOf(ps), ArgsOf(ps) + more);
  }

  lemma {:induction false} MeansIdeally(ps: seq<Piece>, more: seq<Arg>)
    requires AllProper(ps)
    ensures Matches(FormatOf(ps), ArgsOf(ps) + more)
    ensures Expansion(FormatOf(ps), ArgsOf(ps) + more, true) == TextOf(ps)
    ensures LeastLongs(FormatOf(ps), ArgsOf(ps) + more) == LeastIn(ps)
  {
    hide Item, Skip, Uses, Decimal, Hexadecimal, Signed;
    if ps != [] {
      var f, a := FormatOf(ps[1..]), ArgsOf(ps[1..]) + more;
      MeansIdeally(ps[1..], more);
      PieceMeans(ps[0], f, a);
      assert ArgsOf(ps) + more == PieceArgs(ps[0]) + a;
    }
  }

  // The first piece, whatever follows.
  lemma {:induction false} PieceMeans(p: Piece, f: string, a: seq<Arg>)
    requires Proper(p) && Matches(f, a)
    ensures var format, args := PieceFormat(p) + f, PieceArgs(p) + a;
            && Matches(format, args) && Item(format, args, true) == PieceText(p)
            && format[Skip(format)..] == f && args[Uses(format)..] == a
            && LeastLongs(format, args) == LeastLongs(f, a) + if p == Number(-0x8000_0000) then 1 else 0
  {
    hide Decimal, Hexadecimal, Signed;
    var format, args := PieceFormat(p) + f, PieceArgs(p) + a;
    PieceStarts(p, format, args, f, a);
    match p {
      case Number(n) => ToLongIs(args[0].w);
      case _ =>
    }
  }

  lemma {:induction false} PieceStarts(p: Piece, format: string, args: seq<Arg>, f: string, a: seq<Arg>)
    requires Proper(p) && format == PieceFormat(p) + f && args == PieceArgs(p) + a
    ensures format != [] && format[0] == PieceFormat(p)[0]
    ensures !p.Literal? ==> |format| > 1 && format[0] == '%' && format[1] == PieceFormat(p)[1]
    ensures PieceArgs(p) != [] ==> args != [] && args[0] == PieceArgs(p)[0]
    ensures Skip(format) == |PieceFormat(p)| && Uses(format) == |PieceArgs(p)|
    ensures format[Skip(format)..] == f && args[Uses(format)..] == a
  {
    assert format[|PieceFormat(p)|..] == f && args[|PieceArgs(p)|..] == a;
  }

  function LeastIn(ps: seq<Piece>): nat {
    if ps == [] then 0 else (if ps[0] == Number(-0x8000_0000) then 1 else 0) + LeastIn(ps[1..])
  }

  lemma {:induction false} LeastInNone(ps: seq<Piece>)
    ensures LeastIn(ps) == 0 <==> Number(-0x8000_0000) !in ps
  {
    if ps != [] {
      LeastInNone(ps[1..]);
      assert ps == [ps[0]] + ps[1..];
    }
  }

  // Every format that matches its arguments is that of some pieces.
  lemma {:induction false} FormatHasPieces(format: string, args: seq<Arg>) returns (ps: seq<Piece>)
    requires Matches(format, args)
    ensures AllProper(ps) && FormatOf(ps) == format && ArgsOf(ps) <= args
  {
    hide PieceFormat, PieceArgs, Skip, Uses;
    if format == [] {
      return [];
    }
    var p := FirstPiece(format, args);
    var rest := FormatHasPieces(format[Skip(format)..], args[Uses(format)..]);
    ps := [p] + rest;
    assert ps[1..] == rest;
    assert format == format[..Skip(format)] + format[Skip(format)..];
    assert args == args[..Uses(format)] + args[Uses(format)..];
  }

  lemma {:induction false} FirstPiece(format: string, args: seq<Arg>) returns (p: Piece)
    requires format != [] && Matches(format, args)
    ensures Skip(format) <= |format| && Uses(format) <= |args|
    ensures Proper(p) && PieceFormat(p) == format[..Skip(format)] && PieceArgs(p) == args[..Uses(format)]
  {
    if format[0] != '%' {
      p := Literal(format[0]);
    } else {
      match format[1] {
        case 'd' => p := Number(ToLong(args[0].w));
        case 'c' => p := Letter((args[0].w % 256) as char, args[0].w / 256);
        case 'x' => p := Hex(args[0].w);
        case 'u' => p := Unsigned(args[0].w);
        case 's' => p := Str(args[0].s);
        case _ => p := Pair(format[1]);
      }
    }
  }

  // The LONG of a word is the number in its range that is congruent to it.
  lemma {:induction false} ToLongIs(w: nat)
    requires w < WORD
    ensures -0x8000_0000 <= ToLong(w) < 0x8000_0000
    ensures exists k: int :: ToLong(w) == w + k * 0x1_0000_0000
  {
    assert ToLong(w) == w + (if w < 0x8000_0000 then 0 else -1) * 0x1_0000_0000;
  }

  // How often the least LONG is printed with %d.
  function LeastLongs(format: string, args: seq<Arg>): nat
    requires Matches(format, args)
  {
    if format == [] then 0
    else
      (if format[0] == '%' && format[1] == 'd' && ToLong(args[0].w) == LONG_MIN then 1 else 0)
      + LeastLongs(format[Skip(format)..], args[Uses(format)..])
  }

  // What is printed for the least LONG has one character too many.
  lemma {:induction false} LeastLongText()
    ensures LongText(LONG_MIN) == ['-', '-'] + Decimal(214748364) + ['(']
    ensures Signed(LONG_MIN) == ['-'] + Decimal(214748364) + ['8']
  {
    hide Decimal;
    LongTextPositive(214748364);
    assert LongText(-214748364) == ['-'] + LongText(214748364);
    assert Quotient(LONG_MIN) == -214748364 && Remainder(LONG_MIN) == -8;
    LastDigit(214748364, 8);
  }

  lemma {:induction false} LastDigit(n: nat, d: nat)
    requires n > 0 && d < 10
    ensures Decimal(10 * n + d) == Decimal(n) + [Digit(d)]
  {
  }

  // The text is the right one exactly when the least LONG is not in it.
  lemma {:induction false} ExpansionIsIdeal(format: string, args: seq<Arg>)
    requires Matches(format, args)
    ensures |Expansion(format, args, false)| == |Expansion(format, args, true)| + LeastLongs(format, args)
    ensures Expansion(format, args, false) == Expansion(format, args, true) <==> LeastLongs(format, args) == 0
  {
    if format != [] {
      ExpansionIsIdeal(format[Skip(format)..], args[Uses(format)..]);
      if format[0] == '%' && format[1] == 'd' {
        LongTextIsSigned(ToLong(args[0].w));
        LeastLongText();
      }
    }
  }

  // The text is written as far as it fits into size - 1 characters, with a null
  // behind it; nothing else in the buffer changes, and the result is the length of
  // the whole text. A size of 0 is treated like 1.
  method RtlFormatString(buffer: array<char>, size: nat, format: string, args: seq<Arg>) returns (length: nat)
    requires buffer.Length >= size && buffer.Length >= 1 && Matches(format, args)
    modifies buffer
    ensures var full := Expansion(format, args, false);
            var room := if size > 0 then size - 1 else 0;
            var n := if |full| <= room then |full| else room;
            && length == |full|
            && (forall k :: 0 <= k < n ==> buffer[k] == full[k]) && buffer[n] == '\0'
            && forall k :: n < k < buffer.Length ==> buffer[k] == old(buffer[k])
  {
    hide Expansion, Matches, Overwrite;
    var out := new Output(buffer, if size > 0 then size - 1 else 0);
    length := PrintItems(out, format, args);
    buffer[out.cp] := '\0';
  }

  // The loop of RtlFormatString.
  method PrintItems(out: Output, format: string, args: seq<Arg>) returns (length: nat)
    requires out.Fits() && Matches(format, args)
    modifies out, out.buffer
    ensures out.Fits() && out.T() == Put(old(out.T()), Expansion(format, args, false))
    ensures length == |Expansion(format, args, false)|
  {
    hide Put, Matches, Item, Skip, Uses;
    length := 0;
    var i: nat, j: nat := 0, 0;
    ghost var done: string := [];
    PutNothing(out.T());
    while i < |format|
      invariant i <= |format| && j <= |args| && Matches(format[i..], args[j..]) && out.Fits()
      invariant out.T() == Put(old(out.T()), done) && length == |done|
      invariant done + Expansion(format[i..], args[j..], false) == Expansion(format, args, false)
    {
      var n := PrintItem(out, format[i..], args[j..]);
      PutPut(old(out.T()), done, Item(format[i..], args[j..], false));
      Advance(format, args, i, j, done);
      done := done + Item(format[i..], args[j..], false);
      length := length + n;
      i, j := i + Skip(format[i..]), j + Uses(format[i..]);
    }
    assert done == Expansion(format, args, false);
  }

  lemma {:induction false} Advance(format: string, args: seq<Arg>, i: nat, j: nat, done: string)
    requires i < |format| && j <= |args| && Matches(format[i..], args[j..])
    ensures var i', j' := i + Skip(format[i..]), j + Uses(format[i..]);
            && i' <= |format| && j' <= |args| && Matches(format[i'..], args[j'..])
            && done + Expansion(format[i..], args[j..], false)
               == (done + Item(format[i..], args[j..], false)) + Expansion(format[i'..], args[j'..], false)
  {
    var i', j' := i + Skip(format[i..]), j + Uses(format[i..]);
    assert format[i..][Skip(format[i..])..] == format[i'..];
    assert args[j..][Uses(format[i..])..] == args[j'..];
  }

  // One turn of the loop.
  method PrintItem(out: Output, format: string, args: seq<Arg>) returns (length: nat)
    requires out.Fits() && format != [] && Matches(format, args)
    modifies out, out.buffer
    ensures out.Fits() && out.T() == Put(old(out.T()), Item(format, args, false))
    ensures length == |Item(format, args, false)|
  {
    hide Put;
    if format[0] != '%' {
      length := out.PrintChar(format[0]);
      return;
    }
    match format[1] {
      case 'd' => length := out.PrintLong(ToLong(args[0].w));
      case 'c' => length := out.PrintChar((args[0].w % 256) as char);
      case 'x' => length := out.PrintHex(args[0].w);
      case 'u' => length := out.PrintUlong(args[0].w);
      case 's' => length := out.PrintString(args[0].s);
      case _ =>
        PutPut(out.T(), ['%'], [format[1]]);
        assert ['%'] + [format[1]] == ['%', format[1]];
        length := out.PrintChar('%');
        var k := out.PrintChar(format[1]);
        length := length + k;
    }
  }

  // ---------------------------------------------------------------------------
  // RtlAtoUL
  // ---------------------------------------------------------------------------

  // The value of the digits so far and one more character, in ULONG arithmetic.
  function Shift(value: nat, c: char): (r: nat)
    ensures r < WORD
    ensures IsDigit(c) && value * 10 + (c as int - '0' as int) < WORD ==> r == value * 10 + (c as int - '0' as int)
  {
    (value * 10 + (c as int - '0' as int)) % WORD
  }

  function Value(s: string): nat {
    if s == [] then 0 else Shift(Value(s[..|s| - 1]), s[|s| - 1])
  }

  function SkipSpaces(s: string): string
  {
    if s != [] && s[0] == ' ' then SkipSpaces(s[1..]) else s
  }

  // Leading spaces are skipped, all of them, and nothing else.
  lemma {:induction false} SpacesSkipped(s: string)
    ensures var r := SkipSpaces(s);
            |r| <= |s| && s == seq(|s| - |r|, _ => ' ') + r && (r != [] ==> r[0] != ' ')
  {
    if s != [] && s[0] == ' ' {
      SpacesSkipped(s[1..]);
      assert s == [' '] + s[1..];
    } else {
      assert s == seq(0, _ => ' ') + s;
    }
  }

  // RtlAtoUL
  method RtlAtoUL(str: string) returns (result: nat)
    ensures result == Value(SkipSpaces(str))
  {
    result := 0;
    var i := 0;
    while i < |str| && str[i] == ' '
      invariant i <= |str| && SkipSpaces(str[i..]) == SkipSpaces(str)
    {
      assert str[i..][1..] == str[i + 1..];
      i := i + 1;
    }
    ghost var digits := str[i..];
    while i < |str|
      invariant i <= |str| && |digits| >= |str| - i && digits[|digits| - (|str| - i)..] == str[i..]
      invariant result == Value(digits[..|digits| - (|str| - i)])
    {
      ghost var k := |digits| - (|str| - i);
      assert digits[..k + 1][..k] == digits[..k];
      assert str[i + 1..] == str[i..][1..];
      result := Shift(result, str[i]);
      i := i + 1;
    }
    assert digits[..|digits|] == digits;
  }

  // What the characters stand for if each is taken as a digit: below 0 or above 9,
  // if it is none.
  function Whole(s: string): int {
    if s == [] then 0 else 10 * Whole(s[..|s| - 1]) + (s[|s| - 1] as int - '0' as int)
  }

  // RtlAtoUL is exact but for the reduction to 32 bits, on every string.
  lemma {:induction false} ValueIsWhole(s: string)
    ensures Value(s) == Whole(s) % 0x1_0000_0000
  {
    if s != [] {
      var front, d := s[..|s| - 1], s[|s| - 1] as int - '0' as int;
      ValueIsWhole(front);
      SameResidue(10 * Whole(front) + d, 10 * Value(front) + d, 10 * (Whole(front) / 0x1_0000_0000));
    }
  }

  lemma {:induction false} SameResidue(x: int, y: int, k: int)
    requires x == y + k * 0x1_0000_0000
    ensures x % 0x1_0000_0000 == y % 0x1_0000_0000
  {
  }

  // The number that digits stand for.
  function Exact(s: string): nat
    requires forall i :: 0 <= i < |s| ==> IsDigit(s[i])
  {
    if s == [] then 0
    else
      assert IsDigit(s[|s| - 1]);
      10 * Exact(s[..|s| - 1]) + (s[|s| - 1] as int - '0' as int)
  }

  // What is printed for n stands for n, and parsing it never overflows: after k
  // digits the result is exact and at most n.
  lemma {:induction false} ParsingIsExact(n: nat, k: nat)
    requires n < WORD && k <= |Decimal(n)|
    ensures forall i :: 0 <= i < |Decimal(n)| ==> IsDigit(Decimal(n)[i])
    ensures Value(Decimal(n)[..k]) == Exact(Decimal(n)[..k]) <= n
    ensures k == |Decimal(n)| ==> Exact(Decimal(n)[..k]) == n
  {
    DecimalDigits(n);
    var front := if n / 10 != 0 then Decimal(n / 10) else [];
    assert Decimal(n) == front + [Digit(n % 10)];
    if k <= |front| {
      assert Decimal(n)[..k] == front[..k];
      if n / 10 != 0 {
        ParsingIsExact(n / 10, k);
      }
    } else {
      assert Decimal(n)[..k][..k - 1] == front;
      if n / 10 != 0 {
        ParsingIsExact(n / 10, k - 1);
        assert front[..k - 1] == front;
      }
    }
  }

  // What a signed number stands for once it is printed.
  lemma {:induction false} SignedRoundTrip(n: int)
    requires -0x8000_0000 <= n < 0x8000_0000
    ensures if n < 0 then Signed(n) != [] && Signed(n)[0] == '-' && Value(Signed(n)[1..]) == -n
            else Value(Signed(n)) == n
  {
    hide Value, Exact, Digit;
    var m := if n < 0 then -n else n;
    ParsingIsExact(m, |Decimal(m)|);
    assert Decimal(m)[..|Decimal(m)|] == Decimal(m);
    assert n < 0 ==> Signed(n)[1..] == Decimal(m);
  }

  // Spaces and then what _snprintulong prints are read back.
  lemma {:induction false} DecimalRoundTrip(spaces: nat, n: nat)
    requires n < WORD
    ensures Value(SkipSpaces(seq(spaces, _ => ' ') + Decimal(n))) == n
  {
    hide Decimal, Exact, Value, Digit;
    var text := seq(spaces, _ => ' ') + Decimal(n);
    if spaces == 0 {
      DecimalDigits(n);
      assert text == Decimal(n) && IsDigit(text[0]);
      ParsingIsExact(n, |Decimal(n)|);
      assert Decimal(n)[..|Decimal(n)|] == Decimal(n);
    } else {
      DecimalRoundTrip(spaces - 1, n);
      assert text[1..] == seq(spaces - 1, _ => ' ') + Decimal(n);
    }
  }
}
