/**
 * The token codec every message of the recorder's control channel goes
 * through (CommandLine.cpp). A command line is split into white-space
 * separated tokens once, when it is built, and is only read afterwards, so it
 * is a value here; its two constructors, which fill the token vector in a
 * loop, are the methods `ParseLine` and `FromArgs`.
 */
module CommandLines {
  import opened Wrappers
  import opened Conversions

  /** A token: a non-empty run of characters none of which is white space. */
  predicate IsToken(t: string) {
    t != [] && forall i :: 0 <= i < |t| ==> !IsSpace(t[i])
  }

  predicate AllSpace(w: string) {
    forall i :: 0 <= i < |w| ==> IsSpace(w[i])
  }

  /** The length of the run of non-white-space characters that `s` starts with. */
  function RunLength(s: string): (n: nat)
    ensures n <= |s|
    ensures forall i :: 0 <= i < n ==> !IsSpace(s[i])
    ensures n < |s| ==> IsSpace(s[n])
  {
    if s == [] || IsSpace(s[0]) then 0 else 1 + RunLength(s[1..])
  }

  /**
   * What repeated `iss >> token` extracts from `s`: skip white space, take the
   * longest run of other characters, and again until the input is used up.
   */
  function Tokenize(s: string): (ts: seq<string>)
    ensures forall i :: 0 <= i < |ts| ==> IsToken(ts[i])
    decreases |s|
  {
    if s == [] then []
    else if IsSpace(s[0]) then Tokenize(s[1..])
    else
      var n := RunLength(s);
      [s[..n]] + Tokenize(s[n..])
  }

  /** Tokens written one after the other with a single space between two neighbours. */
  function Join(ts: seq<string>): string {
    if ts == [] then "" else if |ts| == 1 then ts[0] else ts[0] + " " + Join(ts[1..])
  }

  /** The return value of a `TryGetAs…` call together with its out-parameter. */
  datatype Parsed<T> = Parsed(success: bool, value: T)

  /** A result, or the `std::out_of_range` exception the codec throws for a bad index. */
  datatype Outcome<T> = Ok(value: T) | OutOfRange

  datatype CommandLine = CommandLine(tokens: seq<string>) {

    /** The number of tokens, as an `int`. */
    function Size(): (n: int)
      ensures n >= 0 && n == |tokens|
    {
      |tokens|
    }

    /**
     * `TryGetAsInt(i, value)`: throws for an index outside the tokens; otherwise
     * parses token `i` with `std::stoi`, returning true and the value, or false
     * with `value` as it was.
     */
    function TryGetAsInt(i: int, value: int32): (r: Outcome<Parsed<int32>>)
      ensures r.OutOfRange? <==> !(0 <= i < |tokens|)
      ensures r.Ok? ==> (r.value.success <==> Stoi(tokens[i]).Some?)
      ensures r.Ok? && r.value.success ==> r.value.value == Stoi(tokens[i]).value
      ensures r.Ok? && !r.value.success ==> r.value.value == value
    {
      if i < 0 || i >= |tokens| then OutOfRange
      else
        match Stoi(tokens[i])
        case Some(v) => Ok(Parsed(true, v))
        case None => Ok(Parsed(false, value))
    }

    /** `TryGetAsBool(i, value)`: as `TryGetAsInt`, the value being whether the integer is non-zero. */
    function TryGetAsBool(i: int, value: bool): (r: Outcome<Parsed<bool>>)
      ensures r.OutOfRange? <==> !(0 <= i < |tokens|)
      ensures r.Ok? ==> (r.value.success <==> Stoi(tokens[i]).Some?)
      ensures r.Ok? && r.value.success ==> r.value.value == (Stoi(tokens[i]).value != 0)
      ensures r.Ok? && !r.value.success ==> r.value.value == value
    {
      if i < 0 || i >= |tokens| then OutOfRange
      else
        match Stoi(tokens[i])
        case Some(v) => Ok(Parsed(true, v != 0))
        case None => Ok(Parsed(false, value))
    }

    /** `Get(index)`: the token at `index`, or `out_of_range`. */
    function Get(index: int): (r: Outcome<string>)
      ensures r.Ok? <==> 0 <= index < |tokens|
      ensures r.Ok? ==> r.value == tokens[index]
    {
      if index < 0 || index >= |tokens| then OutOfRange else Ok(tokens[index])
    }

    /**
     * `Get(start, stop)`: the tokens `start` up to (not including) `stop`
     * joined by single spaces. The guard compares `start` with the token
     * count as an unsigned number, so a negative `start` throws too. The guard
     * does not check `stop` against the token count; reading past the end is
     * undefined behaviour, which the precondition excludes.
     */
    method GetRange(start: int, stop: int) returns (r: Outcome<string>)
      requires start > stop || start < 0 || start > |tokens| || stop <= |tokens|
      ensures r.OutOfRange? <==> (start > stop || start < 0 || start > |tokens| || stop < 0)
      ensures r.Ok? ==> r.value == Join(tokens[start..stop])
      ensures r.Ok? && start == stop ==> r.value == ""
    {
      if start > stop || start < 0 || start > |tokens| || stop < 0 {
        return OutOfRange;
      }
      var out := "";
      var i := start;
      while i < stop
        invariant start <= i <= stop
        invariant out == Join(tokens[start..i])
      {
        JoinSnoc(tokens[start..i], tokens[i]);
        assert tokens[start..i + 1] == tokens[start..i] + [tokens[i]];
        if i > start {
          out := out + " ";
        }
        out := out + tokens[i];
        i := i + 1;
      }
      return Ok(out);
    }
  }

  /** `CommandLine(const std::string&)`: the tokens of `line`, extracted one by one. */
  method ParseLine(line: string) returns (cmd: CommandLine)
    ensures cmd.tokens == Tokenize(line)
    ensures cmd.Size() == |Tokenize(line)|
  {
    var tokens: seq<string> := [];
    var i := 0;
    while i < |line|
      invariant 0 <= i <= |line|
      invariant tokens + Tokenize(line[i..]) == Tokenize(line)
    {
      if IsSpace(line[i]) {
        assert line[i..][1..] == line[i + 1..];
        i := i + 1;
      } else {
        var j := TokenEnd(line, i);
        assert line[i..][..j - i] == line[i..j];
        assert line[i..][j - i..] == line[j..];
        tokens := tokens + [line[i..j]];
        i := j;
      }
    }
    assert line[|line|..] == [];
    cmd := CommandLine(tokens);
  }

  /** The end of the token that starts at `i`: the first white space after it, or the end of the line. */
  method TokenEnd(line: string, i: nat) returns (j: nat)
    requires i < |line|
    ensures i <= j <= |line| && j - i == RunLength(line[i..])
  {
    j := i;
    while j < |line| && !IsSpace(line[j])
      invariant i <= j <= |line|
      invariant forall k :: i <= k < j ==> !IsSpace(line[k])
    {
      j := j + 1;
    }
    RunLengthExact(line[i..], j - i);
  }

  /** `CommandLine(int argc, char* argv[])`: every argument, `argv[0]` included, in order. */
  method FromArgs(argc: int, argv: seq<string>) returns (cmd: CommandLine)
    requires 0 <= argc <= |argv|
    ensures cmd.Size() == argc
    ensures forall i :: 0 <= i < argc ==> cmd.Get(i) == Ok(argv[i])
  {
    var tokens: seq<string> := [];
    for i := 0 to argc
      invariant tokens == argv[..i]
    {
      tokens := tokens + [argv[i]];
    }
    cmd := CommandLine(tokens);
  }

  lemma {:induction false} RunLengthExact(s: string, n: nat)
    requires n <= |s|
    requires forall i :: 0 <= i < n ==> !IsSpace(s[i])
    requires n == |s| || IsSpace(s[n])
    ensures RunLength(s) == n
  {
    if n > 0 {
      RunLengthExact(s[1..], n - 1);
    }
  }

  lemma {:induction false} JoinSnoc(ts: seq<string>, t: string)
    ensures Join(ts + [t]) == if ts == [] then t else Join(ts) + " " + t
  {
    if |ts| >= 2 {
      assert (ts + [t])[1..] == ts[1..] + [t];
      JoinSnoc(ts[1..], t);
    } else if |ts| == 1 {
      assert (ts + [t])[1..] == [t];
    }
  }

  /** White space in front of the input yields no token. */
  lemma {:induction false} TokenizeSkipsSpace(w: string, s: string)
    requires AllSpace(w)
    ensures Tokenize(w + s) == Tokenize(s)
  {
    if w == [] {
      assert w + s == s;
    } else {
      assert (w + s)[1..] == w[1..] + s;
      TokenizeSkipsSpace(w[1..], s);
    }
  }

  /** A token followed by white space or by nothing is extracted whole. */
  lemma TokenizeToken(t: string, rest: string)
    requires IsToken(t)
    requires rest == [] || IsSpace(rest[0])
    ensures Tokenize(t + rest) == [t] + Tokenize(rest)
  {
    var s := t + rest;
    RunLengthExact(s, |t|);
    assert s[..|t|] == t && s[|t|..] == rest;
  }

  /** Joining tokens with single spaces and splitting again gives the same tokens. */
  lemma {:induction false} TokenizeJoin(ts: seq<string>)
    requires forall i :: 0 <= i < |ts| ==> IsToken(ts[i])
    ensures Tokenize(Join(ts)) == ts
  {
    if |ts| == 1 {
      TokenizeToken(ts[0], "");
      assert ts[0] + "" == ts[0];
    } else if |ts| >= 2 {
      var rest := Join(ts[1..]);
      assert ts[0] + " " + rest == ts[0] + (" " + rest);
      TokenizeToken(ts[0], " " + rest);
      TokenizeSkipsSpace(" ", rest);
      TokenizeJoin(ts[1..]);
    }
  }

  /** The tokens `ts`, each followed by one space, and then `rest`. */
  function Spaced(ts: seq<string>, rest: string): string {
    if ts == [] then rest else ts[0] + " " + Spaced(ts[1..], rest)
  }

  /** Tokens each followed by one space, and then `rest`, split into those tokens and the tokens of `rest`. */
  lemma {:induction false} PrefixTokens(ts: seq<string>, rest: string)
    requires forall i :: 0 <= i < |ts| ==> IsToken(ts[i])
    ensures Tokenize(Spaced(ts, rest)) == ts + Tokenize(rest)
  {
    if ts == [] {
      assert Spaced(ts, rest) == rest;
    } else {
      var tail := Spaced(ts[1..], rest);
      assert Spaced(ts, rest) == ts[0] + " " + tail;
      TokenThenSpace(ts[0], tail);
      PrefixTokens(ts[1..], rest);
      assert [ts[0]] + (ts[1..] + Tokenize(rest)) == ts + Tokenize(rest) by {
        assert ts == [ts[0]] + ts[1..];
      }
    }
  }

  lemma TokenThenSpace(t: string, tail: string)
    requires IsToken(t)
    ensures Tokenize(t + " " + tail) == [t] + Tokenize(tail)
  {
    assert t + " " + tail == t + (" " + tail);
    TokenizeToken(t, " " + tail);
    TokenizeSkipsSpace(" ", tail);
  }

  /**
   * The round trip of `Get(0, Size())`: for a command line built from any
   * string, the full range is in bounds and re-splitting it gives back the
   * same tokens.
   */
  lemma ResplitFullRange(line: string)
    ensures var cmd := CommandLine(Tokenize(line));
      Tokenize(Join(cmd.tokens[0..cmd.Size()])) == cmd.tokens
  {
    var ts := Tokenize(line);
    assert ts[0..|ts|] == ts;
    TokenizeJoin(ts);
  }

  /**
   * `s` as white-space gaps and tokens taken in turn: `gaps[0] + ts[0] +
   * gaps[1] + … + ts[n-1] + gaps[n]`.
   */
  function Interleave(gaps: seq<string>, ts: seq<string>): string
    requires |gaps| == |ts| + 1
  {
    if ts == [] then gaps[0] else gaps[0] + ts[0] + Interleave(gaps[1..], ts[1..])
  }

  /** Gaps made of white space only, those between two tokens not empty. */
  predicate Separates(gaps: seq<string>, ts: seq<string>) {
    && |gaps| == |ts| + 1
    && (forall i :: 0 <= i < |gaps| ==> AllSpace(gaps[i]))
    && (forall i :: 0 < i < |ts| ==> gaps[i] != [])
  }

  /**
   * Uniqueness: however a string is laid out as tokens separated by
   * white space, `Tokenize` finds exactly those tokens. So the tokens are the
   * maximal runs of non-white-space characters, in order.
   */
  lemma {:induction false} TokenizeInterleave(gaps: seq<string>, ts: seq<string>)
    requires Separates(gaps, ts)
    requires forall i :: 0 <= i < |ts| ==> IsToken(ts[i])
    ensures Tokenize(Interleave(gaps, ts)) == ts
  {
    if ts == [] {
      TokenizeSkipsSpace(gaps[0], []);
      assert gaps[0] + [] == gaps[0];
    } else {
      var rest := Interleave(gaps[1..], ts[1..]);
      assert Separates(gaps[1..], ts[1..]) by {
        forall i | 0 < i < |ts[1..]| ensures gaps[1..][i] != [] {
          assert gaps[1..][i] == gaps[i + 1];
        }
      }
      assert rest == [] || IsSpace(rest[0]) by {
        if ts[1..] != [] {
          assert gaps[1] != [] && AllSpace(gaps[1]);
          assert rest[0] == gaps[1][0];
        } else {
          assert rest == gaps[1];
        }
      }
      assert Interleave(gaps, ts) == gaps[0] + (ts[0] + rest);
      TokenizeSkipsSpace(gaps[0], ts[0] + rest);
      TokenizeToken(ts[0], rest);
      TokenizeInterleave(gaps[1..], ts[1..]);
    }
  }

  /**
   * Existence: the white-space gaps around the tokens of `s`; `s` is exactly
   * its tokens interleaved with these gaps, so splitting loses nothing but
   * white space.
   */
  ghost function Gaps(s: string): (gaps: seq<string>)
    ensures Separates(gaps, Tokenize(s))
    ensures s == Interleave(gaps, Tokenize(s))
    ensures s != [] && IsSpace(s[0]) ==> gaps[0] != []
    decreases |s|
  {
    if s == [] then [[]]
    else if IsSpace(s[0]) then
      var g := Gaps(s[1..]);
      GapsWiden(s[0], s[1..], g, Tokenize(s[1..]));
      [[s[0]] + g[0]] + g[1..]
    else
      var n := RunLength(s);
      var g := Gaps(s[n..]);
      GapsAfterToken(s, n, g, Tokenize(s[n..]));
      [[]] + g
  }

  /** A white-space character in front widens the first gap. */
  lemma GapsWiden(c: char, rest: string, g: seq<string>, ts: seq<string>)
    requires IsSpace(c)
    requires Separates(g, ts) && rest == Interleave(g, ts)
    ensures Separates([[c] + g[0]] + g[1..], ts)
    ensures [c] + rest == Interleave([[c] + g[0]] + g[1..], ts)
  {
    var gaps := [[c] + g[0]] + g[1..];
    assert AllSpace(gaps[0]) by {
      forall i | 0 <= i < |gaps[0]| ensures IsSpace(gaps[0][i]) {
        if i > 0 { assert gaps[0][i] == g[0][i - 1]; }
      }
    }
    forall i | 0 < i < |gaps| ensures gaps[i] == g[i] {
    }
    if ts != [] {
      assert gaps[1..] == g[1..];
    }
  }

  /** A token at the front is preceded by an empty gap. */
  lemma GapsAfterToken(s: string, n: nat, g: seq<string>, ts: seq<string>)
    requires 0 < n == RunLength(s)
    requires ts == Tokenize(s[n..])
    requires Separates(g, ts) && s[n..] == Interleave(g, ts)
    requires s[n..] != [] && IsSpace(s[n..][0]) ==> g[0] != []
    ensures Tokenize(s) == [s[..n]] + ts
    ensures Separates([[]] + g, [s[..n]] + ts)
    ensures s == Interleave([[]] + g, [s[..n]] + ts)
  {
    var gaps := [[]] + g;
    forall i | 0 < i < |gaps| ensures gaps[i] == g[i - 1] {
    }
    if ts != [] {
      assert s[n..] != [];
    }
    assert gaps[1..] == g && ([s[..n]] + ts)[1..] == ts;
    assert s == s[..n] + s[n..];
  }

  /** A line has no tokens exactly when it is all white space. */
  lemma {:induction false} TokenizeEmptyWhenBlank(line: string)
    ensures Tokenize(line) == [] <==> AllSpace(line)
  {
    if line != [] {
      if IsSpace(line[0]) {
        TokenizeEmptyWhenBlank(line[1..]);
        assert AllSpace(line[1..]) ==> AllSpace(line) by {
          if AllSpace(line[1..]) {
            forall i | 0 <= i < |line| ensures IsSpace(line[i]) {
              if i > 0 { assert line[i] == line[1..][i - 1]; }
            }
          }
        }
        assert AllSpace(line) ==> AllSpace(line[1..]) by {
          if AllSpace(line) {
            forall i | 0 <= i < |line| - 1 ensures IsSpace(line[1..][i]) {
              assert line[1..][i] == line[i + 1];
            }
          }
        }
      }
    }
  }

  /** Joining two non-empty runs of tokens puts one space between their joins. */
  lemma {:induction false} JoinAppend(a: seq<string>, b: seq<string>)
    requires a != [] && b != []
    ensures Join(a + b) == Join(a) + " " + Join(b)
  {
    if |a| == 1 {
      assert (a + b)[1..] == b;
    } else {
      assert (a + b)[1..] == a[1..] + b;
      JoinAppend(a[1..], b);
    }
  }
}
