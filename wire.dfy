/**
 * The text lines the chat server writes to its clients, and the server's
 * test for the reserved `quit` command.
 */
module Wire {

  /** Sent to a client that typed `quit`, just before its session ends. */
  const QuitNotice: string := "Server: You have quit chatting. Goodbye!"

  /** Sent to the partner of a client that typed `quit`. */
  const PartnerLeft: string := "[Server] Partner left"

  /** Sent to every started client when the server shuts down. */
  const ShuttingDown: string := "[Server] Shutting down."

  /** Prefix of every line the operator broadcasts. */
  const OperatorPrefix: string := "[SERVER] "

  const WelcomeHead: string := "Connected. You are Chat "
  const WelcomeTail: string := ". Type messages (or 'quit' to exit)."

  // ---------------------------------------------------------------------------
  // Decimal rendering of an int, as Java's string concatenation does it
  // ---------------------------------------------------------------------------

  predicate IsDigit(c: char) { '0' as int <= c as int <= '9' as int }

  function DigitChar(d: nat): (c: char)
    requires d < 10
    ensures IsDigit(c) && c as int - '0' as int == d
  {
    ('0' as int + d) as char
  }

  /** The decimal digits of `n`, most significant first, without leading zeros. */
  function Decimal(n: nat): (r: string)
    ensures 1 <= |r|
    ensures forall i :: 0 <= i < |r| ==> IsDigit(r[i])
    ensures r[0] == '0' ==> n == 0
  {
    if n < 10 then [DigitChar(n)] else Decimal(n / 10) + [DigitChar(n % 10)]
  }

  /** The number a string of decimal digits denotes: the reference reading of `Decimal`. */
  function DigitsValue(s: string): (n: nat)
    requires forall i :: 0 <= i < |s| ==> IsDigit(s[i])
  {
    if s == [] then 0
    else
      var d := s[|s| - 1] as int - '0' as int;
      assert IsDigit(s[|s| - 1]);
      DigitsValue(s[..|s| - 1]) * 10 + d
  }

  lemma {:induction false} DecimalRoundTrip(n: nat)
    ensures DigitsValue(Decimal(n)) == n
  {
    if n >= 10 {
      var r := Decimal(n);
      assert r[..|r| - 1] == Decimal(n / 10);
      DecimalRoundTrip(n / 10);
    }
  }

  /** `"" + i` in Java for an int `i`. */
  function IntText(i: int): (r: string)
    ensures 1 <= |r|
    ensures (r[0] == '-') == (i < 0)
  {
    if i < 0 then "-" + Decimal(-i) else Decimal(i)
  }

  lemma IntTextInjective(a: int, b: int)
    requires IntText(a) == IntText(b)
    ensures a == b
  {
    if a < 0 {
      assert b < 0;
      assert Decimal(-a) == IntText(a)[1..] == IntText(b)[1..] == Decimal(-b);
      DecimalRoundTrip(-a);
      DecimalRoundTrip(-b);
    } else {
      assert b >= 0;
      assert Decimal(a) == Decimal(b);
      DecimalRoundTrip(a);
      DecimalRoundTrip(b);
    }
  }

  /**
   * The line a client receives once its session has started: the two
   * identities the server hands out are rendered as the single digits 1 and 2.
   */
  function Welcome(id: int): (w: string)
    ensures id == 1 ==> w == WelcomeHead + "1" + WelcomeTail
    ensures id == 2 ==> w == WelcomeHead + "2" + WelcomeTail
  {
    assert IntText(1) == "1" by {
      assert DigitChar(1) == '1';
    }
    assert IntText(2) == "2" by {
      assert DigitChar(2) == '2';
    }
    WelcomeHead + IntText(id) + WelcomeTail
  }

  /** The welcome line names the client's identity: two identities never share one. */
  lemma WelcomeNamesIdentity(a: int, b: int)
    ensures Welcome(a) == Welcome(b) <==> a == b
  {
    if Welcome(a) == Welcome(b) {
      var ta, tb := IntText(a), IntText(b);
      assert |ta| == |tb|;
      assert Welcome(a)[|WelcomeHead|..|WelcomeHead| + |ta|] == ta;
      assert Welcome(b)[|WelcomeHead|..|WelcomeHead| + |tb|] == tb;
      IntTextInjective(a, b);
    }
  }

  // ---------------------------------------------------------------------------
  // Java's String.equalsIgnoreCase, and the quit command
  // ---------------------------------------------------------------------------

  /**
   * Character.toUpperCase on the letters that matter when the other side of
   * the comparison is an ASCII letter other than k or s: the ASCII letters and
   * U+0131 (dotless i, whose upper case is I). Every other character is its
   * own image here.
   */
  function ToUpper(c: char): char
  {
    if 'a' <= c <= 'z' then (c as int - 32) as char
    else if c == '\U{0131}' then 'I'
    else c
  }

  /**
   * Character.toLowerCase on the same range: the ASCII letters and U+0130
   * (I with a dot above, whose lower case is i).
   */
  function ToLower(c: char): char
  {
    if 'A' <= c <= 'Z' then (c as int + 32) as char
    else if c == '\U{0130}' then 'i'
    else c
  }

  /** The per-character test of String.regionMatches with ignoreCase set. */
  predicate CharsMatchIgnoringCase(a: char, b: char)
  {
    a == b || ToUpper(a) == ToUpper(b) || ToLower(ToUpper(a)) == ToLower(ToUpper(b))
  }

  predicate EqualsIgnoreCase(s: string, t: string)
    ensures s == t ==> EqualsIgnoreCase(s, t)
    ensures EqualsIgnoreCase(s, t) ==> |s| == |t|
  {
    |s| == |t| && forall i :: 0 <= i < |s| ==> CharsMatchIgnoringCase(s[i], t[i])
  }

  /**
   * The reserved command that ends a client session or, typed by the
   * operator, the server. Spelled out: four characters, each q, u, i, t in
   * either case, where the i may also be the dotted capital U+0130 or the
   * dotless small U+0131.
   */
  predicate IsQuit(s: string)
    ensures IsQuit(s) <==>
      && |s| == 4
      && s[0] in {'q', 'Q'}
      && s[1] in {'u', 'U'}
      && s[2] in {'i', 'I', '\U{0130}', '\U{0131}'}
      && s[3] in {'t', 'T'}
  {
    EqualsIgnoreCase(s, "quit")
  }

  /** ASCII case folding, as a reference independent of the Java case tables. */
  function AsciiFold(s: string): (r: string)
    ensures |r| == |s|
  {
    seq(|s|, i requires 0 <= i < |s| => if 'A' <= s[i] <= 'Z' then (s[i] as int + 32) as char else s[i])
  }

  /** On ASCII input, the quit test is exactly "folds to quit". */
  lemma QuitOnAscii(s: string)
    requires forall i :: 0 <= i < |s| ==> s[i] as int < 128
    ensures IsQuit(s) <==> AsciiFold(s) == "quit"
  {
    if |s| == 4 && AsciiFold(s) == "quit" {
      assert AsciiFold(s)[0] == 'q' && AsciiFold(s)[1] == 'u';
      assert AsciiFold(s)[2] == 'i' && AsciiFold(s)[3] == 't';
    }
  }

  /** Lines that are not ASCII can still be quit commands: Java's case tables say so. */
  lemma QuitBeyondAscii()
    ensures IsQuit("QU\U{0130}T") && IsQuit("qu\U{0131}t")
    ensures !IsQuit("quit ") && !IsQuit("qui")
  {
  }
}
