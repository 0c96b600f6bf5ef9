/** The command logic of the interactive debugger in src/debugger.rs: a set of breakpoint
    addresses, a parser that turns one input line into a `DebugAction`, and the parsing of
    hexadecimal addresses and decimal lengths. What the actions print is not part of this
    model. */
module Debugger {
  import opened Conf

  datatype Result<T> = Ok(value: T) | Err(msg: string)

  /** src/debugger.rs `DebugAction`. */
  datatype DebugAction =
    | Quit
    | Step
    | Continue
    | ShowRegisters
    | ShowMemory(addr: Word, len: nat)
    | ShowBreakpoints
    | Help

  const USAGE_BREAK := "Usage: break <addr>"
  const USAGE_CLEAR := "Usage: clear <addr>"
  const USAGE_INFO := "Usage: info <registers|memory|breakpoints>"
  const USAGE_MEMORY := "Usage: info memory <addr> <len>"
  const INVALID_LENGTH := "Invalid length"
  const UNKNOWN_INFO := "Unknown info command. Try: registers, memory, breakpoints"
  const UNKNOWN_COMMAND := "Unknown command: "
  const INVALID_ADDRESS := "Invalid address: "

  // ---------------------------------------------------------------- splitting a line

  /** The Unicode White_Space property, which `str::trim` and `str::split_whitespace` use. */
  predicate IsSpace(c: char)
  {
    || ('\t' <= c <= '\r') || c == ' ' || c == '\U{0085}' || c == '\U{00A0}' || c == '\U{1680}'
    || ('\U{2000}' <= c <= '\U{200A}') || c == '\U{2028}' || c == '\U{2029}' || c == '\U{202F}'
    || c == '\U{205F}' || c == '\U{3000}'
  }

  predicate AllSpace(s: string)
  {
    forall i :: 0 <= i < |s| ==> IsSpace(s[i])
  }

  predicate NoSpace(w: string)
  {
    forall i :: 0 <= i < |w| ==> !IsSpace(w[i])
  }

  /** A token as `split_whitespace` yields it: non-empty, without white space. */
  predicate IsToken(w: string)
  {
    |w| > 0 && NoSpace(w)
  }

  /** s without its leading white space. */
  function SkipSpace(s: string): (r: string)
    ensures |r| <= |s| && (r == [] || !IsSpace(r[0]))
  {
    if s != [] && IsSpace(s[0]) then
      SkipSpace(s[1..])
    else s
  }

  /** Length of the run of non-white-space characters s starts with. */
  function WordLength(s: string): (n: nat)
    ensures n <= |s| && (n == |s| || IsSpace(s[n]))
    ensures forall i :: 0 <= i < n ==> !IsSpace(s[i])
  {
    if s == [] || IsSpace(s[0]) then 0 else 1 + WordLength(s[1..])
  }

  /** `str::split_whitespace`: the maximal runs of non-white-space characters, in order. */
  function Tokens(s: string): (ts: seq<string>)
    ensures forall k :: 0 <= k < |ts| ==> IsToken(ts[k])
    decreases |s|
  {
    var t := SkipSpace(s);
    if t == [] then []
    else
      var n := WordLength(t);
      [t[..n]] + Tokens(t[n..])
  }

  /** A line has no tokens exactly when it is empty or white space only, that is when
      `trim` leaves nothing of it. */
  lemma {:induction false} NoTokensIffBlank(s: string)
    ensures Tokens(s) == [] <==> AllSpace(s)
  {
    SkipSpaceEmptyIff(s);
  }

  /** Skipping the leading white space leaves nothing exactly on blank text. */
  lemma {:induction false} SkipSpaceEmptyIff(s: string)
    ensures SkipSpace(s) == [] <==> AllSpace(s)
    decreases |s|
  {
    if s != [] && IsSpace(s[0]) {
      SkipSpaceEmptyIff(s[1..]);
      assert AllSpace(s) <==> AllSpace(s[1..]) by {
        assert forall i :: 0 < i < |s| ==> s[i] == s[1..][i - 1];
      }
    }
  }

  /** Tokens joined by single spaces. */
  function Join(ts: seq<string>): string
  {
    if ts == [] then ""
    else if |ts| == 1 then ts[0]
    else ts[0] + " " + Join(ts[1..])
  }

  lemma {:induction false} TokensOfShortJoin(ts: seq<string>)
    requires |ts| <= 1 && forall k :: 0 <= k < |ts| ==> IsToken(ts[k])
    ensures Tokens(Join(ts)) == ts
  {
    assert SkipSpace("") == "";
    assert Tokens("") == [];
    if |ts| == 1 {
      TokensOfWord(ts[0], "");
      assert ts[0] + "" == ts[0];
      assert [ts[0]] + [] == ts;
    }
  }

  lemma JoinCons(ts: seq<string>)
    requires |ts| >= 2
    ensures Join(ts) == ts[0] + (" " + Join(ts[1..]))
  {
  }

  lemma {:induction false} TokensJoinStep(w: string, rest: string, ts: seq<string>)
    requires IsToken(w) && Tokens(rest) == ts
    ensures Tokens(w + (" " + rest)) == [w] + ts
  {
    TokensOfWord(w, " " + rest);
    TokensAfterSpace(rest);
  }

  lemma {:induction false} TokensAfterSpace(s: string)
    ensures Tokens(" " + s) == Tokens(s)
  {
    assert (" " + s)[1..] == s;
  }

  lemma {:induction false} TokensOfWord(w: string, rest: string)
    requires IsToken(w) && (rest == [] || IsSpace(rest[0]))
    ensures Tokens(w + rest) == [w] + Tokens(rest)
  {
    var s := w + rest;
    assert SkipSpace(s) == s;
    WordLengthOf(w, rest);
    assert s[..|w|] == w && s[|w|..] == rest;
  }

  lemma {:induction false} WordLengthOf(w: string, rest: string)
    requires NoSpace(w) && (rest == [] || IsSpace(rest[0]))
    ensures WordLength(w + rest) == |w|
    decreases |w|
  {
    if w != [] {
      assert (w + rest)[0] == w[0];
      assert (w + rest)[1..] == w[1..] + rest;
      WordLengthOf(w[1..], rest);
    }
  }

  /** Splitting undoes joining: a line written as tokens separated by single spaces splits
      back into those tokens. */
  lemma {:induction false} TokensOfJoin(ts: seq<string>)
    requires forall k :: 0 <= k < |ts| ==> IsToken(ts[k])
    ensures Tokens(Join(ts)) == ts
    decreases |ts|
  {
    if |ts| <= 1 {
      TokensOfShortJoin(ts);
    } else {
      JoinCons(ts);
      TokensOfJoin(ts[1..]);
      TokensJoinStep(ts[0], Join(ts[1..]), ts[1..]);
      assert [ts[0]] + ts[1..] == ts;
    }
  }

  // ---------------------------------------------------------------- numbers

  /** `char::to_digit(radix)`: the value of c as a digit of the given radix, or -1. */
  function DigitValue(c: char, radix: nat): (d: int)
    requires 2 <= radix <= 36
    ensures -1 <= d < radix as int
  {
    var v :=
      if '0' <= c <= '9' then c as int - '0' as int
      else if 'a' <= c <= 'z' then c as int - 'a' as int + 10
      else if 'A' <= c <= 'Z' then c as int - 'A' as int + 10
      else -1;
    if v < radix as int then v else -1
  }

  predicate AllDigits(s: string, radix: nat)
    requires 2 <= radix <= 36
  {
    forall i :: 0 <= i < |s| ==> DigitValue(s[i], radix) >= 0
  }

  /** The number the digits s denote, read after the value acc already read. */
  function ValueFrom(acc: nat, s: string, radix: nat): (v: nat)
    requires 2 <= radix <= 36 && AllDigits(s, radix)
    ensures v >= acc
    decreases |s|
  {
    if s == [] then acc
    else
      MulAtLeast(acc, radix);
      ValueFrom(acc * radix + DigitValue(s[0], radix), s[1..], radix)
  }

  lemma MulAtLeast(a: nat, r: nat)
    requires r >= 1
    ensures a * r >= a
  {
  }

  /** The digit loop of `from_str_radix` for an unsigned type whose largest value is max:
      each step multiplies and adds with an overflow check and fails on a non-digit. */
  function Accumulate(acc: nat, s: string, radix: nat, max: nat): (r: Option<nat>)
    requires 2 <= radix <= 36
    decreases |s|
  {
    if s == [] then Some(acc)
    else
      var d := DigitValue(s[0], radix);
      if d < 0 || acc * radix > max || acc * radix + d > max then None
      else Accumulate(acc * radix + d, s[1..], radix, max)
  }

  datatype Option<T> = None | Some(value: T)

  /** The checked loop succeeds exactly on digit strings whose value fits, and then yields
      that value: checking every step is the same as checking the end result. */
  lemma {:induction false} AccumulateMeansValue(acc: nat, s: string, radix: nat, max: nat)
    requires 2 <= radix <= 36 && acc <= max
    ensures Accumulate(acc, s, radix, max).Some? <==> AllDigits(s, radix) && ValueFrom(acc, s, radix) <= max
    ensures Accumulate(acc, s, radix, max).Some? ==> Accumulate(acc, s, radix, max).value == ValueFrom(acc, s, radix)
    decreases |s|
  {
    if s != [] {
      var d := DigitValue(s[0], radix);
      if d < 0 {
        assert !AllDigits(s, radix);
      } else {
        if AllDigits(s[1..], radix) {
          assert AllDigits(s, radix) by {
            forall i | 0 <= i < |s| ensures DigitValue(s[i], radix) >= 0 {
              if i > 0 { assert s[i] == s[1..][i - 1]; }
            }
          }
        }
        if acc * radix + d <= max {
          AccumulateMeansValue(acc * radix + d, s[1..], radix, max);
        } else if AllDigits(s, radix) {
          assert AllDigits(s[1..], radix) by {
            forall i | 0 <= i < |s| - 1 ensures DigitValue(s[1..][i], radix) >= 0 {
              assert s[1..][i] == s[i + 1];
            }
          }
        }
      }
    }
  }

  /** `from_str_radix` for an unsigned type: one optional leading '+', then at least one
      digit. */
  function FromStrRadix(s: string, radix: nat, max: nat): (r: Option<nat>)
    requires 2 <= radix <= 36
    ensures r.Some? ==> r.value <= max
  {
    if s == [] then None
    else if (s[0] == '+' || s[0] == '-') && |s| == 1 then None
    else
      var digits := if s[0] == '+' then s[1..] else s;
      var r := Accumulate(0, digits, radix, max);
      AccumulateMeansValue(0, digits, radix, max);
      r
  }

  /** `trim_start_matches("0x")`: every leading "0x" removed. */
  function StripHexPrefix(s: string): (r: string)
    ensures |r| <= |s| && !(|r| >= 2 && r[..2] == "0x")
  {
    if |s| >= 2 && s[..2] == "0x" then StripHexPrefix(s[2..]) else s
  }

  /** src/debugger.rs `parse_addr`. */
  function ParseAddr(s: string): (r: Result<Word>)
    ensures r.Err? ==> r.msg == INVALID_ADDRESS + StripHexPrefix(s)
  {
    var t := StripHexPrefix(s);
    match FromStrRadix(t, 16, 0xFFFF)
    case Some(v) => Ok(v)
    case None => Err(INVALID_ADDRESS + t)
  }

  /** `str::parse::<usize>` */
  function ParseLength(s: string): (r: Option<nat>)
    ensures r.Some? ==> r.value <= USIZE_MAX
  {
    FromStrRadix(s, 10, USIZE_MAX)
  }

  // ---------------------------------------------------------------- printing numbers

  predicate IsHexDigitChar(c: char)
  {
    '0' <= c <= '9' || 'a' <= c <= 'f'
  }

  function DigitChar(d: nat): (c: char)
    requires d < 16
  {
    if d < 10 then ('0' as int + d) as char else ('a' as int + d - 10) as char
  }

  lemma DigitCharValue(d: nat, radix: nat)
    requires 2 <= radix <= 16 && d < radix
    ensures IsHexDigitChar(DigitChar(d)) && DigitValue(DigitChar(d), radix) == d
  {
  }

  lemma DivModFacts(v: nat, r: nat)
    requires r >= 2
    ensures v % r < r && v == v / r * r + v % r
    ensures v >= r ==> 0 < v / r < v
    ensures v < r ==> v % r == v
  {
  }

  /** v written in the given radix (2..16) without leading zeros, as `{:x}` or `{}` would. */
  function ToDigits(v: nat, radix: nat): (s: string)
    requires 2 <= radix <= 16
    ensures |s| > 0 && AllDigits(s, radix) && forall i :: 0 <= i < |s| ==> IsHexDigitChar(s[i])
    decreases v
  {
    DivModFacts(v, radix);
    DigitCharValue(v % radix, radix);
    var last := DigitChar(v % radix);
    if v < radix then [last]
    else ToDigits(v / radix, radix) + [last]
  }

  lemma {:induction false} ValueFromAppend(acc: nat, s: string, c: char, radix: nat)
    requires 2 <= radix <= 36 && AllDigits(s, radix) && DigitValue(c, radix) >= 0
    ensures AllDigits(s + [c], radix)
    ensures ValueFrom(acc, s + [c], radix) == ValueFrom(acc, s, radix) * radix + DigitValue(c, radix)
    decreases |s|
  {
    assert AllDigits(s + [c], radix) by {
      forall i | 0 <= i < |s| + 1 ensures DigitValue((s + [c])[i], radix) >= 0 {
        if i < |s| { assert (s + [c])[i] == s[i]; }
      }
    }
    if s != [] {
      assert (s + [c])[1..] == s[1..] + [c];
      ValueFromAppend(acc * radix + DigitValue(s[0], radix), s[1..], c, radix);
    }
  }

  /** Reading back the digits of v gives v. */
  lemma {:induction false} DigitsRoundTrip(v: nat, radix: nat)
    requires 2 <= radix <= 16
    ensures ValueFrom(0, ToDigits(v, radix), radix) == v
    decreases v
  {
    DivModFacts(v, radix);
    DigitCharValue(v % radix, radix);
    var last := DigitChar(v % radix);
    if v >= radix {
      var q, r := v / radix, v % radix;
      var front := ToDigits(q, radix);
      assert ToDigits(v, radix) == front + [last];
      DigitsRoundTrip(q, radix);
      ValueFromAppend(0, front, last, radix);
      assert ValueFrom(0, front + [last], radix) == q * radix + r == v;
    } else {
      assert ToDigits(v, radix) == [last];
      assert [last][1..] == [];
      assert 0 * radix + DigitValue(last, radix) == v;
      assert ValueFrom(0, [last], radix) == ValueFrom(v, [], radix) == v;
    }
  }

  /** The digits of v parse back to v when v fits below max, and are rejected when it
      does not. */
  lemma {:induction false} DigitsParse(v: nat, radix: nat, max: nat)
    requires 2 <= radix <= 16
    ensures FromStrRadix(ToDigits(v, radix), radix, max) == if v <= max then Some(v) else None
  {
    var h := ToDigits(v, radix);
    DigitsRoundTrip(v, radix);
    AccumulateMeansValue(0, h, radix, max);
    assert IsHexDigitChar(h[0]);
  }

  /** Printed digits never start with "0x". */
  lemma DigitsHaveNoPrefix(v: nat, radix: nat)
    requires 2 <= radix <= 16
    ensures StripHexPrefix(ToDigits(v, radix)) == ToDigits(v, radix)
  {
    var h := ToDigits(v, radix);
    if |h| >= 2 {
      assert h[..2][1] == h[1] && IsHexDigitChar(h[1]);
    }
  }

  lemma {:induction false} StripsPrefix(s: string)
    requires !(|s| >= 2 && s[..2] == "0x")
    ensures StripHexPrefix("0x" + s) == s && StripHexPrefix("0x0x" + s) == s
  {
    assert ("0x" + s)[2..] == s;
    assert ("0x0x" + s)[2..] == "0x" + s;
  }

  /** Parsing the hexadecimal text of any 16-bit address, with or without any number of
      leading "0x", gives that address back. */
  lemma {:induction false} AddrRoundTrip(a: Word)
    ensures ParseAddr(ToDigits(a, 16)) == Ok(a)
    ensures ParseAddr("0x" + ToDigits(a, 16)) == Ok(a)
    ensures ParseAddr("0x0x" + ToDigits(a, 16)) == Ok(a)
  {
    DigitsParse(a, 16, 0xFFFF);
    DigitsHaveNoPrefix(a, 16);
    StripsPrefix(ToDigits(a, 16));
  }

  /** One leading '+' is accepted, as `from_str_radix` accepts it. */
  lemma {:induction false} AddrPlusSign(a: Word)
    ensures ParseAddr("+" + ToDigits(a, 16)) == Ok(a)
  {
    var h := ToDigits(a, 16);
    var t := "+" + h;
    assert t[..2][0] == '+';
    assert StripHexPrefix(t) == t;
    assert t[1..] == h;
    DigitsParse(a, 16, 0xFFFF);
    assert h[0] != '+' && h[0] != '-' by { assert IsHexDigitChar(h[0]); }
  }

  /** Every leading "0x" is ignored, including in the message of a failure. */
  lemma {:induction false} AddrPrefixIgnored(s: string)
    ensures ParseAddr("0x" + s) == ParseAddr(s)
  {
    assert ("0x" + s)[..2] == "0x" && ("0x" + s)[2..] == s;
  }

  /** A number above 0xFFFF is rejected, with the stripped text in the message. */
  lemma {:induction false} AddrRejectsOverflow(v: nat)
    requires v > 0xFFFF
    ensures ParseAddr(ToDigits(v, 16)) == Err(INVALID_ADDRESS + ToDigits(v, 16))
    ensures ParseAddr("0x" + ToDigits(v, 16)) == Err(INVALID_ADDRESS + ToDigits(v, 16))
  {
    DigitsParse(v, 16, 0xFFFF);
    DigitsHaveNoPrefix(v, 16);
    StripsPrefix(ToDigits(v, 16));
  }

  /** Text with no digits, or with a character that is not a hexadecimal digit, is
      rejected. */
  lemma {:induction false} AddrRejectsNonDigits(s: string)
    ensures ParseAddr("") == Err(INVALID_ADDRESS) && ParseAddr("0x") == Err(INVALID_ADDRESS)
    ensures !AllDigits(s, 16) && s != [] && s[0] != '+' && s[0] != '0' ==> ParseAddr(s) == Err(INVALID_ADDRESS + s)
    ensures var t := StripHexPrefix(s);
      var d := if t != [] && t[0] == '+' then t[1..] else t;
      !AllDigits(d, 16) ==> ParseAddr(s) == Err(INVALID_ADDRESS + t)
  {
    assert StripHexPrefix("0x") == "" by { assert "0x"[2..] == ""; }
    if !AllDigits(s, 16) && s != [] && s[0] != '+' && s[0] != '0' {
      if |s| >= 2 {
        assert s[..2][0] == s[0];
      }
      assert StripHexPrefix(s) == s;
      AccumulateMeansValue(0, s, 16, 0xFFFF);
    }
    AddrAcceptsExactly(s);
  }

  /** `parse_addr` accepts exactly the text whose part after the "0x" prefixes and an
      optional '+' is a non-empty run of hexadecimal digits denoting at most 0xFFFF, and
      returns that value. */
  lemma {:induction false} AddrAcceptsExactly(s: string)
    ensures var t := StripHexPrefix(s);
      var d := if t != [] && t[0] == '+' then t[1..] else t;
      && (ParseAddr(s).Ok? <==> d != [] && AllDigits(d, 16) && ValueFrom(0, d, 16) <= 0xFFFF)
      && (ParseAddr(s).Ok? ==> ParseAddr(s).value == ValueFrom(0, d, 16))
      && (ParseAddr(s).Err? ==> ParseAddr(s).msg == INVALID_ADDRESS + t)
  {
    var t := StripHexPrefix(s);
    if t != [] && !((t[0] == '+' || t[0] == '-') && |t| == 1) {
      var d := if t[0] == '+' then t[1..] else t;
      AccumulateMeansValue(0, d, 16, 0xFFFF);
    }
  }

  /** The decimal text of any length that fits a `usize` parses back to it; a larger one
      is rejected. */
  lemma {:induction false} LengthRoundTrip(n: nat)
    ensures ParseLength(ToDigits(n, 10)) == if n <= USIZE_MAX then Some(n) else None
  {
    DigitsParse(n, 10, USIZE_MAX);
  }

  // ---------------------------------------------------------------- commands

  /** src/debugger.rs `parse_breakpoint` on values: the action and the new breakpoint set. */
  function BreakCommand(bps: set<Word>, parts: seq<string>): (r: (Result<DebugAction>, set<Word>))
  {
    if |parts| != 2 then (Err(USAGE_BREAK), bps)
    else match ParseAddr(parts[1])
      case Err(e) => (Err(e), bps)
      case Ok(a) => (Ok(ShowBreakpoints), bps + {a})
  }

  /** src/debugger.rs `parse_clear` on values. */
  function ClearCommand(bps: set<Word>, parts: seq<string>): (r: (Result<DebugAction>, set<Word>))
  {
    if |parts| != 2 then (Err(USAGE_CLEAR), bps)
    else match ParseAddr(parts[1])
      case Err(e) => (Err(e), bps)
      case Ok(a) => (Ok(ShowBreakpoints), bps - {a})
  }

  /** src/debugger.rs `parse_info`. */
  function InfoCommand(parts: seq<string>): (r: Result<DebugAction>)
    requires |parts| > 0
  {
    if |parts| < 2 then Err(USAGE_INFO)
    else if parts[1] == "r" || parts[1] == "registers" then Ok(ShowRegisters)
    else if parts[1] == "m" || parts[1] == "memory" then
      if |parts| != 4 then Err(USAGE_MEMORY)
      else match ParseAddr(parts[2])
        case Err(e) => Err(e)
        case Ok(a) =>
          match ParseLength(parts[3])
          case None => Err(INVALID_LENGTH)
          case Some(n) => Ok(ShowMemory(a, n))
    else if parts[1] == "b" || parts[1] == "breakpoints" then Ok(ShowBreakpoints)
    else Err(UNKNOWN_INFO)
  }

  /** src/debugger.rs `parse_and_execute` on values: the action for one input line and the
      breakpoint set after it. */
  function Interpret(bps: set<Word>, input: string): (r: (Result<DebugAction>, set<Word>))
  {
    var parts := Tokens(input);
    if parts == [] then (Ok(Continue), bps) else Command(bps, parts)
  }

  /** The match on the first token of a non-blank line. */
  function Command(bps: set<Word>, parts: seq<string>): (r: (Result<DebugAction>, set<Word>))
    requires |parts| > 0
  {
      var cmd := parts[0];
      if cmd == "q" || cmd == "quit" then (Ok(Quit), bps)
      else if cmd == "s" || cmd == "step" then (Ok(Step), bps)
      else if cmd == "c" || cmd == "continue" then (Ok(Continue), bps)
      else if cmd == "i" || cmd == "info" then (InfoCommand(parts), bps)
      else if cmd == "b" || cmd == "break" then BreakCommand(bps, parts)
      else if cmd == "clear" then ClearCommand(bps, parts)
      else if cmd == "help" || cmd == "h" then (Ok(Help), bps)
      else (Err(UNKNOWN_COMMAND + cmd), bps)
  }

  /** An empty or white-space-only line continues and changes nothing. */
  lemma {:induction false} BlankLineContinues(bps: set<Word>, input: string)
    requires AllSpace(input)
    ensures Interpret(bps, input) == (Ok(Continue), bps)
  {
    NoTokensIffBlank(input);
  }

  /** Only a successful break or clear with exactly one argument changes the breakpoints,
      and it then changes exactly the parsed address and shows the breakpoints. */
  lemma {:induction false} OnlyBreakAndClearChange(bps: set<Word>, input: string)
    ensures var (r, bps') := Interpret(bps, input);
      bps' != bps ==>
        && |Tokens(input)| == 2
        && Tokens(input)[0] in ["b", "break", "clear"]
        && r == Ok(ShowBreakpoints)
        && ParseAddr(Tokens(input)[1]).Ok?
        && bps' == (if Tokens(input)[0] == "clear" then bps - {ParseAddr(Tokens(input)[1]).value}
                    else bps + {ParseAddr(Tokens(input)[1]).value})
  {
  }

  /** break and clear with a number of arguments other than one fail with their usage
      message and leave the breakpoints alone. */
  lemma {:induction false} WrongArityIsUsage(bps: set<Word>, input: string)
    requires |Tokens(input)| > 0 && |Tokens(input)| != 2
    ensures Tokens(input)[0] in ["b", "break"] ==> Interpret(bps, input) == (Err(USAGE_BREAK), bps)
    ensures Tokens(input)[0] == "clear" ==> Interpret(bps, input) == (Err(USAGE_CLEAR), bps)
  {
  }

  /** The first token alone decides the plain commands, whatever follows it; an unknown
      first token is an error naming it. */
  lemma {:induction false} FirstTokenDecides(bps: set<Word>, input: string)
    requires |Tokens(input)| > 0
    ensures var cmd := Tokens(input)[0];
      && (cmd in ["q", "quit"] ==> Interpret(bps, input) == (Ok(Quit), bps))
      && (cmd in ["s", "step"] ==> Interpret(bps, input) == (Ok(Step), bps))
      && (cmd in ["c", "continue"] ==> Interpret(bps, input) == (Ok(Continue), bps))
      && (cmd in ["h", "help"] ==> Interpret(bps, input) == (Ok(Help), bps))
      && ((cmd !in ["q", "quit", "s", "step", "c", "continue", "i", "info", "b", "break", "clear", "h", "help"])
            ==> Interpret(bps, input) == (Err(UNKNOWN_COMMAND + cmd), bps))
  {
  }

  /** "break <addr>" with the address in hexadecimal after "0x" adds exactly that address
      and shows the breakpoints. */
  lemma {:induction false} BreakLine(bps: set<Word>, a: Word)
    ensures Interpret(bps, "break 0x" + ToDigits(a, 16)) == (Ok(ShowBreakpoints), bps + {a})
  {
    var h := "0x" + ToDigits(a, 16);
    AddrRoundTrip(a);
    PrefixedIsToken(ToDigits(a, 16));
    assert "break 0x" + ToDigits(a, 16) == "break" + " " + h;
    InterpretLine(bps, "break", h);
  }

  /** "clear <addr>" likewise removes exactly that address. */
  lemma {:induction false} ClearLine(bps: set<Word>, a: Word)
    ensures Interpret(bps, "clear 0x" + ToDigits(a, 16)) == (Ok(ShowBreakpoints), bps - {a})
  {
    var h := "0x" + ToDigits(a, 16);
    AddrRoundTrip(a);
    PrefixedIsToken(ToDigits(a, 16));
    assert "clear 0x" + ToDigits(a, 16) == "clear" + " " + h;
    InterpretLine(bps, "clear", h);
  }

  /** Setting a breakpoint that was not set and then clearing it gives back the breakpoints
      there were before. */
  lemma {:induction false} BreakThenClear(bps: set<Word>, a: Word)
    requires a !in bps
    ensures Interpret(Interpret(bps, "break 0x" + ToDigits(a, 16)).1, "clear 0x" + ToDigits(a, 16)).1 == bps
  {
    BreakLine(bps, a);
    ClearLine(bps + {a}, a);
    assert bps + {a} - {a} == bps;
  }

  /** A line of two tokens is interpreted as the command they make up. */
  lemma {:induction false} InterpretLine(bps: set<Word>, cmd: string, arg: string)
    requires IsToken(cmd) && IsToken(arg)
    ensures Interpret(bps, cmd + " " + arg) == Command(bps, [cmd, arg])
  {
    CommandLine(cmd, arg);
  }

  lemma PrefixedIsToken(d: string)
    requires |d| > 0 && forall i :: 0 <= i < |d| ==> IsHexDigitChar(d[i])
    ensures IsToken("0x" + d) && IsToken(d)
  {
    var h := "0x" + d;
    forall i | 2 <= i < |h| ensures !IsSpace(h[i]) {
      assert h[i] == d[i - 2];
    }
  }

  /** A command word, one space and an argument token split into those two tokens. */
  lemma {:induction false} CommandLine(cmd: string, arg: string)
    requires IsToken(cmd) && IsToken(arg)
    ensures Tokens(cmd + " " + arg) == [cmd, arg]
  {
    JoinCons([cmd, arg]);
    assert Join([cmd, arg][1..]) == arg;
    assert cmd + " " + arg == cmd + (" " + arg);
    TokensOfJoin([cmd, arg]);
  }

  /** "info memory <addr> <len>" with a hexadecimal address and a decimal length asks for
      that memory range. */
  lemma {:induction false} InfoMemoryLine(bps: set<Word>, a: Word, n: nat)
    requires n <= USIZE_MAX
    ensures Interpret(bps, "info memory " + ToDigits(a, 16) + " " + ToDigits(n, 10))
              == (Ok(ShowMemory(a, n)), bps)
  {
    var h := ToDigits(a, 16);
    var d := ToDigits(n, 10);
    PrefixedIsToken(h);
    PrefixedIsToken(d);
    var ts := ["info", "memory", h, d];
    InfoMemoryJoin(h, d);
    InterpretJoin(bps, ts);
    InfoMemoryParts(bps, a, n);
  }

  lemma InfoMemoryParts(bps: set<Word>, a: Word, n: nat)
    requires n <= USIZE_MAX
    ensures Command(bps, ["info", "memory", ToDigits(a, 16), ToDigits(n, 10)]) == (Ok(ShowMemory(a, n)), bps)
  {
    AddrRoundTrip(a);
    LengthRoundTrip(n);
  }

  lemma InfoMemoryJoin(h: string, d: string)
    ensures "info memory " + h + " " + d == Join(["info", "memory", h, d])
  {
    JoinFour(["info", "memory", h, d]);
  }

  /** info memory with other than two arguments is a usage error. */
  lemma {:induction false} InfoMemoryArity(bps: set<Word>, input: string)
    requires |Tokens(input)| >= 2 && |Tokens(input)| != 4
    requires Tokens(input)[0] in ["i", "info"] && Tokens(input)[1] in ["m", "memory"]
    ensures Interpret(bps, input) == (Err(USAGE_MEMORY), bps)
  {
  }

  lemma JoinFour(ts: seq<string>)
    requires |ts| == 4
    ensures Join(ts) == ts[0] + " " + ts[1] + " " + ts[2] + " " + ts[3]
  {
    assert Join(ts[3..]) == ts[3];
    JoinCons(ts[2..]);
    assert ts[2..][1..] == ts[3..];
    JoinCons(ts[1..]);
    assert ts[1..][1..] == ts[2..];
    JoinCons(ts);
  }

  /** A line written as tokens joined by spaces is interpreted as the command they make
      up. */
  lemma {:induction false} InterpretJoin(bps: set<Word>, ts: seq<string>)
    requires |ts| > 0 && forall k :: 0 <= k < |ts| ==> IsToken(ts[k])
    ensures Interpret(bps, Join(ts)) == Command(bps, ts)
  {
    TokensOfJoin(ts);
  }

  // ---------------------------------------------------------------- the debugger

  /** src/debugger.rs `Debugger`. */
  class Debugger {
    var breakpoints: set<Word>

    constructor ()
      ensures breakpoints == {}
    {
      breakpoints := {};
    }

    /** src/debugger.rs `should_break` */
    function ShouldBreak(pc: Word): (b: bool)
      reads this
      ensures b <==> pc in breakpoints
    {
      pc in breakpoints
    }

    /** src/debugger.rs `set_breakpoint`: afterwards the debugger breaks at addr, and at
        every other address exactly as before. */
    method SetBreakpoint(addr: Word)
      modifies this
      ensures breakpoints == old(breakpoints) + {addr}
      ensures ShouldBreak(addr) && forall pc :: pc != addr ==> (ShouldBreak(pc) <==> old(ShouldBreak(pc)))
    {
      breakpoints := breakpoints + {addr};
    }

    /** src/debugger.rs `clear_breakpoint`: afterwards the debugger does not break at
        addr, and at every other address exactly as before. */
    method ClearBreakpoint(addr: Word)
      modifies this
      ensures breakpoints == old(breakpoints) - {addr}
      ensures !ShouldBreak(addr) && forall pc :: pc != addr ==> (ShouldBreak(pc) <==> old(ShouldBreak(pc)))
    {
      breakpoints := breakpoints - {addr};
    }

    /** src/debugger.rs `parse_breakpoint` */
    method ParseBreakpoint(parts: seq<string>) returns (r: Result<DebugAction>)
      modifies this
      ensures (r, breakpoints) == BreakCommand(old(breakpoints), parts)
    {
      if |parts| != 2 {
        return Err(USAGE_BREAK);
      }
      var addr := ParseAddr(parts[1]);
      if addr.Err? {
        return Err(addr.msg);
      }
      SetBreakpoint(addr.value);
      r := Ok(ShowBreakpoints);
    }

    /** src/debugger.rs `parse_clear` */
    method ParseClear(parts: seq<string>) returns (r: Result<DebugAction>)
      modifies this
      ensures (r, breakpoints) == ClearCommand(old(breakpoints), parts)
    {
      if |parts| != 2 {
        return Err(USAGE_CLEAR);
      }
      var addr := ParseAddr(parts[1]);
      if addr.Err? {
        return Err(addr.msg);
      }
      ClearBreakpoint(addr.value);
      r := Ok(ShowBreakpoints);
    }

    /** src/debugger.rs `parse_and_execute`: the machine state it is handed is not read. */
    method ParseAndExecute(input: string) returns (r: Result<DebugAction>)
      modifies this
      ensures (r, breakpoints) == Interpret(old(breakpoints), input)
    {
      NoTokensIffBlank(input);
      if AllSpace(input) {
        return Ok(Continue);
      }
      var parts := Tokens(input);
      var cmd := parts[0];
      if cmd == "q" || cmd == "quit" {
        r := Ok(Quit);
      } else if cmd == "s" || cmd == "step" {
        r := Ok(Step);
      } else if cmd == "c" || cmd == "continue" {
        r := Ok(Continue);
      } else if cmd == "i" || cmd == "info" {
        r := InfoCommand(parts);
      } else if cmd == "b" || cmd == "break" {
        r := ParseBreakpoint(parts);
      } else if cmd == "clear" {
        r := ParseClear(parts);
      } else if cmd == "help" || cmd == "h" {
        r := Ok(Help);
      } else {
        r := Err(UNKNOWN_COMMAND + cmd);
      }
    }
  }
}
