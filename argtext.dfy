/** The two loops of pixtendtool that walk over the command-line words: the
    `-sws` join, which rebuilds one string from the words after the flag with a
    single space between them, and the echo of an unrecognised command, which
    prints every word followed by a space. */
module ArgText {

  /** The words joined with one space between neighbours. */
  function Joined(tokens: seq<string>): (s: string)
    requires |tokens| >= 1
    decreases |tokens|
  {
    if |tokens| == 1 then tokens[0]
    else Joined(tokens[..|tokens| - 1]) + " " + tokens[|tokens| - 1]
  }

  /** Every word followed by one space, as the echo prints them. */
  function Echoed(words: seq<string>): (s: string)
    decreases |words|
  {
    if words == [] then []
    else Echoed(words[..|words| - 1]) + words[|words| - 1] + " "
  }

  function TotalLength(tokens: seq<string>): (n: nat)
    decreases |tokens|
  {
    if tokens == [] then 0 else TotalLength(tokens[..|tokens| - 1]) + |tokens[|tokens| - 1]|
  }

  predicate SpaceFree(t: string) {
    forall i :: 0 <= i < |t| ==> t[i] != ' '
  }

  /** Cutting a line at every space, keeping empty fields: the reading a shell
      gives of a line whose words are separated by single spaces. */
  function SplitSpaces(s: string): (fields: seq<string>)
    ensures |fields| >= 1
    decreases |s|
  {
    if s == [] then [""]
    else
      var fs := SplitSpaces(s[..|s| - 1]);
      if s[|s| - 1] == ' ' then fs + [""]
      else fs[..|fs| - 1] + [fs[|fs| - 1] + [s[|s| - 1]]]
  }

  /** The `-sws` loop: `strcpy(str, argv[2])`, then `strcat` of a space and of
      `argv[i]` for each `i` from 3 up to `argc - 1`. The buffer is unbounded
      here, as no length check exists. */
  method JoinArgs(argv: seq<string>) returns (str: string)
    requires |argv| >= 3
    ensures str == Joined(argv[2..])
    ensures |str| == TotalLength(argv[2..]) + |argv| - 3
  {
    str := argv[2];
    var i := 3;
    while i < |argv|
      invariant 3 <= i <= |argv|
      invariant str == Joined(argv[2..i])
    {
      assert argv[2..i + 1][..i - 2] == argv[2..i];
      str := str + " " + argv[i];
      i := i + 1;
    }
    assert argv[2..i] == argv[2..];
    JoinedLength(argv[2..]);
  }

  /** The echo loop of an unrecognised command: `printf("%s ", argv[i])` for
      each `i` from 0 up to `argc - 1`. */
  method EchoArgs(argv: seq<string>) returns (text: string)
    ensures text == Echoed(argv)
    ensures argv != [] ==> text == Joined(argv) + " "
  {
    text := [];
    var i := 0;
    while i < |argv|
      invariant 0 <= i <= |argv|
      invariant text == Echoed(argv[..i])
    {
      assert argv[..i + 1][..i] == argv[..i];
      text := text + argv[i] + " ";
      i := i + 1;
    }
    assert argv[..i] == argv;
    if argv != [] {
      EchoedIsJoined(argv);
    }
  }

  /** The join adds exactly one character per gap between words. */
  lemma {:induction false} JoinedLength(tokens: seq<string>)
    requires |tokens| >= 1
    ensures |Joined(tokens)| == TotalLength(tokens) + |tokens| - 1
    decreases |tokens|
  {
    if |tokens| > 1 {
      JoinedLength(tokens[..|tokens| - 1]);
      assert tokens[..|tokens| - 1][..|tokens| - 2] == tokens[..|tokens| - 2];
    } else {
      assert tokens[..0] == [];
    }
  }

  /** The echo is the join with a trailing space. */
  lemma {:induction false} EchoedIsJoined(words: seq<string>)
    requires |words| >= 1
    ensures Echoed(words) == Joined(words) + " "
    decreases |words|
  {
    if |words| > 1 {
      EchoedIsJoined(words[..|words| - 1]);
    } else {
      assert words[..0] == [];
    }
  }

  /** A word without spaces is one field. */
  lemma {:induction false} SplitSpaceFree(t: string)
    requires SpaceFree(t)
    ensures SplitSpaces(t) == [t]
    decreases |t|
  {
    if t != [] {
      SplitSpaceFree(t[..|t| - 1]);
      assert t[..|t| - 1] + [t[|t| - 1]] == t;
    }
  }

  /** Appending a space and a space-free word adds exactly that word as a field. */
  lemma {:induction false} SplitAppend(s: string, t: string)
    requires SpaceFree(t)
    ensures SplitSpaces(s + " " + t) == SplitSpaces(s) + [t]
    decreases |t|
  {
    if t == [] {
      assert (s + " " + t)[..|s + " " + t| - 1] == s;
    } else {
      var u := t[..|t| - 1];
      assert (s + " " + t)[..|s + " " + t| - 1] == s + " " + u;
      SplitAppend(s, u);
      assert u + [t[|t| - 1]] == t;
    }
  }

  /** Joining words that hold no space can be undone by cutting at the spaces:
      the string `-sws` sends is exactly the words the shell split it into. */
  lemma {:induction false} SplitJoined(tokens: seq<string>)
    requires |tokens| >= 1
    requires forall i :: 0 <= i < |tokens| ==> SpaceFree(tokens[i])
    ensures SplitSpaces(Joined(tokens)) == tokens
    decreases |tokens|
  {
    if |tokens| == 1 {
      SplitSpaceFree(tokens[0]);
    } else {
      var init := tokens[..|tokens| - 1];
      SplitJoined(init);
      SplitAppend(Joined(init), tokens[|tokens| - 1]);
    }
  }
}
