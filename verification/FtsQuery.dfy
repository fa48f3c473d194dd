/** sanitizeFTSQuery prints a query; this parses it back. */
module FtsQuery {
  import opened Spaces

  /* Maximal runs */

  function RunLength(s: string, keep: char -> bool): (n: nat)
    ensures n <= |s|
    ensures forall i | 0 <= i < n :: keep(s[i])
    ensures n < |s| ==> !keep(s[n])
  {
    if s != "" && keep(s[0]) then 1 + RunLength(s[1..], keep) else 0
  }

  // The maximal runs of kept characters, in order.
  function Runs(s: string, keep: char -> bool): seq<string>
    decreases |s|
  {
    if s == "" then []
    else if keep(s[0]) then [s[..RunLength(s, keep)]] + Runs(s[RunLength(s, keep)..], keep)
    else Runs(s[1..], keep)
  }

  // s is gap, run, gap, run, ..., gap: every gap between two runs is there, and no kept
  // character is outside a run.
  ghost predicate Woven(s: string, runs: seq<string>, keep: char -> bool)
    decreases |runs|
  {
    if runs == [] then forall i | 0 <= i < |s| :: !keep(s[i])
    else exists g: nat :: GapThenRun(s, g, runs[0], keep) && Woven(s[g + |runs[0]|..], runs[1..], keep)
  }

  ghost predicate GapThenRun(s: string, g: nat, run: string, keep: char -> bool) {
    && run != "" && g + |run| <= |s|
    && (forall i | 0 <= i < g :: !keep(s[i]))
    && s[g..g + |run|] == run
    && (forall i | 0 <= i < |run| :: keep(run[i]))
    && (g + |run| < |s| ==> !keep(s[g + |run|]))
  }

  lemma {:induction false} NoRuns(s: string, keep: char -> bool)
    requires forall i | 0 <= i < |s| :: !keep(s[i])
    ensures Runs(s, keep) == []
    decreases |s|
  {
    if s != "" {
      NoRuns(s[1..], keep);
    }
  }

  lemma {:induction false} RunsAfterGap(s: string, g: nat, keep: char -> bool)
    requires g <= |s| && forall i | 0 <= i < g :: !keep(s[i])
    ensures Runs(s, keep) == Runs(s[g..], keep)
    decreases g
  {
    if g > 0 {
      RunsAfterGap(s[1..], g - 1, keep);
      assert s[1..][g - 1..] == s[g..];
    }
  }

  lemma {:induction false} RunLengthIs(s: string, n: nat, keep: char -> bool)
    requires n <= |s| && (forall i | 0 <= i < n :: keep(s[i])) && (n < |s| ==> !keep(s[n]))
    ensures RunLength(s, keep) == n
    decreases n
  {
    if n > 0 {
      RunLengthIs(s[1..], n - 1, keep);
    }
  }

  // A gap and a run at the front are the first of the runs.
  lemma {:induction false} FirstRun(s: string, g: nat, run: string, keep: char -> bool)
    requires GapThenRun(s, g, run, keep)
    ensures Runs(s, keep) == [run] + Runs(s[g + |run|..], keep)
  {
    RunsAfterGap(s, g, keep);
    var t, n := s[g..], |run|;
    assert t[..n] == run && t[n..] == s[g + n..];
    assert forall i | 0 <= i < n :: t[i] == run[i];
    RunLengthIs(t, n, keep);
  }

  // The decomposition determines the runs.
  lemma {:induction false} WovenIsRuns(s: string, runs: seq<string>, keep: char -> bool)
    requires Woven(s, runs, keep)
    ensures Runs(s, keep) == runs
    decreases |runs|
  {
    if runs == [] {
      NoRuns(s, keep);
    } else {
      var g: nat :| GapThenRun(s, g, runs[0], keep) && Woven(s[g + |runs[0]|..], runs[1..], keep);
      FirstRun(s, g, runs[0], keep);
      WovenIsRuns(s[g + |runs[0]|..], runs[1..], keep);
    }
  }

  // Every string has it.
  lemma {:induction false} RunsAreWoven(s: string, keep: char -> bool)
    ensures Woven(s, Runs(s, keep), keep)
    decreases |s|
  {
    if s != "" {
      if keep(s[0]) {
        var n := RunLength(s, keep);
        RunsAreWoven(s[n..], keep);
        WovenRun(s, n, Runs(s[n..], keep), keep);
      } else {
        RunsAreWoven(s[1..], keep);
        WovenGap(s, Runs(s[1..], keep), keep);
      }
    }
  }

  lemma {:induction false} WovenRun(s: string, n: nat, runs: seq<string>, keep: char -> bool)
    requires n <= |s| && GapThenRun(s, 0, s[..n], keep) && Woven(s[n..], runs, keep)
    ensures Woven(s, [s[..n]] + runs, keep)
  {
    var all := [s[..n]] + runs;
    assert all[1..] == runs && all[0] == s[..n];
    assert s[0 + |all[0]|..] == s[n..];
    assert GapThenRun(s, 0, all[0], keep);
  }

  lemma {:induction false} WovenGap(s: string, runs: seq<string>, keep: char -> bool)
    requires s != "" && !keep(s[0]) && Woven(s[1..], runs, keep)
    ensures Woven(s, runs, keep)
  {
    if runs != [] {
      var g: nat :| GapThenRun(s[1..], g, runs[0], keep) && Woven(s[1..][g + |runs[0]|..], runs[1..], keep);
      GapGrows(s, g, runs[0], keep);
      assert s[1..][g + |runs[0]|..] == s[g + 1 + |runs[0]|..];
    } else {
      assert forall i | 0 < i < |s| :: s[i] == s[1..][i - 1];
    }
  }

  lemma GapGrows(s: string, g: nat, run: string, keep: char -> bool)
    requires s != "" && !keep(s[0]) && GapThenRun(s[1..], g, run, keep)
    ensures GapThenRun(s, g + 1, run, keep)
  {
    assert forall i | 0 < i < |s| :: s[i] == s[1..][i - 1];
    assert s[g + 1..g + 1 + |run|] == s[1..][g..g + |run|];
  }

  /* sanitizeFTSQuery */

  // What the printer needs of letters and digits: none is white space or a quote.
  ghost predicate WordClass(word: char -> bool) {
    forall c: char {:trigger word(c)} :: word(c) ==> !IsSpace(c) && c != '"'
  }

  function Printed(tokens: seq<string>): string
    decreases |tokens|
  {
    if tokens == [] then ""
    else if |tokens| == 1 then "\"" + tokens[0] + "\"*"
    else "\"" + tokens[0] + "\"*" + " OR " + Printed(tokens[1..])
  }

  function Blanked(query: string, word: char -> bool): string {
    seq(|query|, i requires 0 <= i < |query| => if word(query[i]) then query[i] else ' ')
  }

  // strings.Fields
  method Fields(s: string) returns (fields: seq<string>)
    ensures fields == Runs(s, c => !IsSpace(c))
  {
    var keep := (c: char) => !IsSpace(c);
    fields := [];
    var i := 0;
    while i < |s|
      invariant 0 <= i <= |s|
      invariant fields + Runs(s[i..], keep) == Runs(s, keep)
    {
      if IsSpace(s[i]) {
        SkipOne(s, i, keep);
        i := i + 1;
      } else {
        var start := i;
        while i < |s| && !IsSpace(s[i])
          invariant start <= i <= |s|
          invariant forall k | start <= k < i :: !IsSpace(s[k])
        {
          i := i + 1;
        }
        TakeOne(s, start, i, keep);
        ghost var was := fields;
        assert was + ([s[start..i]] + Runs(s[i..], keep)) == (was + [s[start..i]]) + Runs(s[i..], keep);
        fields := fields + [s[start..i]];
      }
    }
  }

  lemma SkipOne(s: string, i: nat, keep: char -> bool)
    requires i < |s| && !keep(s[i])
    ensures Runs(s[i..], keep) == Runs(s[i + 1..], keep)
  {
    assert s[i..][1..] == s[i + 1..];
  }

  lemma TakeOne(s: string, start: nat, end: nat, keep: char -> bool)
    requires start < end <= |s| && (forall k | start <= k < end :: keep(s[k])) && (end < |s| ==> !keep(s[end]))
    ensures Runs(s[start..], keep) == [s[start..end]] + Runs(s[end..], keep)
  {
    var rest, run := s[start..], s[start..end];
    assert forall k | 0 <= k < |run| :: run[k] == s[start + k];
    assert rest[0..0 + |run|] == run && rest[|run|..] == s[end..];
    FirstRun(rest, 0, run, keep);
  }

  // strings.Join
  method Join(parts: seq<string>, sep: string) returns (s: string)
    ensures s == Joined(parts, sep)
  {
    s := "";
    for i := 0 to |parts|
      invariant i == 0 ==> s == ""
      invariant 0 < i <= |parts| ==> s == Joined(parts[..i], sep)
    {
      if i > 0 {
        JoinedSnoc(parts[..i], parts[i], sep);
        s := s + sep;
      }
      assert parts[..i + 1] == parts[..i] + [parts[i]];
      s := s + parts[i];
    }
    assert parts[..|parts|] == parts;
  }

  function Joined(parts: seq<string>, sep: string): string
    decreases |parts|
  {
    if parts == [] then "" else if |parts| == 1 then parts[0] else parts[0] + sep + Joined(parts[1..], sep)
  }

  lemma {:induction false} JoinedSnoc(parts: seq<string>, part: string, sep: string)
    requires parts != []
    ensures Joined(parts + [part], sep) == Joined(parts, sep) + sep + part
    decreases |parts|
  {
    assert (parts + [part])[1..] == parts[1..] + [part];
    if |parts| > 1 {
      JoinedSnoc(parts[1..], part, sep);
    } else {
      assert parts[1..] + [part] == [part];
    }
  }

  function Quoted(tokens: seq<string>): seq<string> {
    seq(|tokens|, i requires 0 <= i < |tokens| => "\"" + tokens[i] + "\"*")
  }

  lemma {:induction false} PrintedIsJoined(tokens: seq<string>)
    ensures Joined(Quoted(tokens), " OR ") == Printed(tokens)
    decreases |tokens|
  {
    if |tokens| > 1 {
      PrintedIsJoined(tokens[1..]);
      assert Quoted(tokens)[1..] == Quoted(tokens[1..]);
    }
  }

  method SanitizeFTSQuery(query: string, word: char -> bool) returns (printed: string)
    requires WordClass(word)
    ensures printed == Printed(Runs(query, word))
  {
    var b := "";
    for i := 0 to |query|
      invariant b == Blanked(query, word)[..i]
    {
      if word(query[i]) {
        b := b + [query[i]];
      } else {
        b := b + [' '];
      }
    }
    assert Blanked(query, word)[..|query|] == Blanked(query, word);
    var tokens := Fields(b);
    FieldsAreRuns(query, word);
    var quoted: seq<string> := [];
    for i := 0 to |tokens|
      invariant quoted == Quoted(tokens)[..i]
    {
      quoted := quoted + ["\"" + tokens[i] + "\"*"];
    }
    assert Quoted(tokens)[..|tokens|] == Quoted(tokens);
    printed := Join(quoted, " OR ");
    PrintedIsJoined(tokens);
  }

  // Blanking leaves the runs of letters and digits as the fields.
  lemma {:induction false} FieldsAreRuns(query: string, word: char -> bool)
    requires WordClass(word)
    ensures Runs(Blanked(query, word), c => !IsSpace(c)) == Runs(query, word)
  {
    RunsAreWoven(query, word);
    BlankedWoven(query, Runs(query, word), word);
    WovenIsRuns(Blanked(query, word), Runs(query, word), c => !IsSpace(c));
  }

  lemma GapBlanked(s: string, g: nat, run: string, word: char -> bool)
    requires WordClass(word) && GapThenRun(s, g, run, word)
    ensures GapThenRun(Blanked(s, word), g, run, c => !IsSpace(c))
  {
    var b := Blanked(s, word);
    forall i | 0 <= i < |run| ensures b[g..g + |run|][i] == run[i] {
      assert s[g..g + |run|][i] == s[g + i];
    }
  }

  lemma {:induction false} BlankedWoven(s: string, runs: seq<string>, word: char -> bool)
    requires WordClass(word) && Woven(s, runs, word)
    ensures Woven(Blanked(s, word), runs, c => !IsSpace(c))
    decreases |runs|
  {
    if runs != [] {
      var g: nat :| GapThenRun(s, g, runs[0], word) && Woven(s[g + |runs[0]|..], runs[1..], word);
      GapBlanked(s, g, runs[0], word);
      BlankedWoven(s[g + |runs[0]|..], runs[1..], word);
      assert Blanked(s, word)[g + |runs[0]|..] == Blanked(s[g + |runs[0]|..], word);
    }
  }

  /* Parsing */

  datatype Parse = Terms(tokens: seq<string>) | Malformed

  function QuoteAt(s: string): (n: nat)
    ensures n <= |s| && (forall i | 0 <= i < n :: s[i] != '"') && (n < |s| ==> s[n] == '"')
  {
    if s == "" || s[0] == '"' then 0 else 1 + QuoteAt(s[1..])
  }

  // A query is a list of quoted prefix terms joined by OR; the empty query has no term.
  function ParseQuery(s: string): Parse {
    if s == "" then Terms([]) else ParseTerms(s)
  }

  function ParseTerms(s: string): Parse
    decreases |s|
  {
    if s == "" || s[0] != '"' then Malformed
    else
      var n := QuoteAt(s[1..]);
      if |s| < n + 3 || s[n + 2] != '*' then Malformed
      else if |s| == n + 3 then Terms([s[1..n + 1]])
      else if |s| < n + 7 || s[n + 3..n + 7] != " OR " then Malformed
      else match ParseTerms(s[n + 7..])
        case Terms(tokens) => Terms([s[1..n + 1]] + tokens)
        case Malformed => Malformed
  }

  ghost predicate NoQuotes(tokens: seq<string>) {
    forall i, j | 0 <= i < |tokens| && 0 <= j < |tokens[i]| :: tokens[i][j] != '"'
  }

  lemma {:induction false} QuoteAfter(token: string, rest: string)
    requires forall j | 0 <= j < |token| :: token[j] != '"'
    ensures QuoteAt(token + "\"" + rest) == |token|
    decreases |token|
  {
    if token == "" {
      assert token + "\"" + rest == "\"" + rest;
    } else {
      assert (token + "\"" + rest)[1..] == token[1..] + "\"" + rest;
      QuoteAfter(token[1..], rest);
    }
  }

  // What the parser reads off a printed term that is followed by more.
  lemma TermParts(token: string, more: string)
    requires forall j | 0 <= j < |token| :: token[j] != '"'
    ensures var s := "\"" + token + "\"*" + more;
      && |s| == |token| + 3 + |more| && s[0] == '"' && QuoteAt(s[1..]) == |token|
      && s[1..|token| + 1] == token && s[|token| + 2] == '*' && s[|token| + 3..] == more
  {
    var s := "\"" + token + "\"*" + more;
    assert s[1..] == token + "\"" + ("*" + more);
    QuoteAfter(token, "*" + more);
  }

  lemma {:induction false} ParseLast(token: string)
    requires forall j | 0 <= j < |token| :: token[j] != '"'
    ensures ParseTerms("\"" + token + "\"*") == Terms([token])
  {
    TermParts(token, "");
    assert "\"" + token + "\"*" + "" == "\"" + token + "\"*";
  }

  lemma {:induction false} ParseNext(token: string, rest: string)
    requires forall j | 0 <= j < |token| :: token[j] != '"'
    requires ParseTerms(rest).Terms?
    ensures ParseTerms("\"" + token + "\"*" + (" OR " + rest)) == Terms([token] + ParseTerms(rest).tokens)
  {
    var s := "\"" + token + "\"*" + (" OR " + rest);
    TermParts(token, " OR " + rest);
    Drops(s, |token| + 3, " OR ", rest);
    ParseStep(s, |token|);
  }

  // What ParseTerms does with a term that is followed by another, given the parts it looks at.
  lemma {:induction false} ParseStep(s: string, n: nat)
    requires |s| >= n + 7 && s[0] == '"' && QuoteAt(s[1..]) == n && s[n + 2] == '*' && s[n + 3..n + 7] == " OR "
    requires ParseTerms(s[n + 7..]).Terms?
    ensures ParseTerms(s) == Terms([s[1..n + 1]] + ParseTerms(s[n + 7..]).tokens)
  {
  }

  lemma Drops(s: string, k: nat, sep: string, rest: string)
    requires k <= |s| && s[k..] == sep + rest
    ensures |s| == k + |sep| + |rest| && s[k..k + |sep|] == sep && s[k + |sep|..] == rest
  {
    assert s[k..][..|sep|] == sep && s[k..][|sep|..] == rest;
  }

  lemma {:induction false} ParsePrinted(tokens: seq<string>)
    requires tokens != [] && NoQuotes(tokens)
    ensures ParseTerms(Printed(tokens)) == Terms(tokens)
    decreases |tokens|
  {
    if |tokens| == 1 {
      ParseLast(tokens[0]);
      assert tokens == [tokens[0]];
    } else {
      ParsePrinted(tokens[1..]);
      ParseNext(tokens[0], Printed(tokens[1..]));
      Regroup(tokens[0], Printed(tokens[1..]));
      assert tokens == [tokens[0]] + tokens[1..];
    }
  }

  lemma Regroup(token: string, rest: string)
    ensures "\"" + token + "\"*" + " OR " + rest == "\"" + token + "\"*" + (" OR " + rest)
  {
  }

  lemma {:induction false} RunsHaveNoQuotes(s: string, word: char -> bool)
    requires WordClass(word)
    ensures NoQuotes(Runs(s, word))
    decreases |s|
  {
    if s != "" {
      if word(s[0]) {
        RunsHaveNoQuotes(s[RunLength(s, word)..], word);
      } else {
        RunsHaveNoQuotes(s[1..], word);
      }
    }
  }

  // Print, then parse: exactly the runs of letters and digits of the query, whatever they spell.
  lemma {:induction false} PrintParse(query: string, word: char -> bool)
    requires WordClass(word)
    ensures ParseQuery(Printed(Runs(query, word))) == Terms(Runs(query, word))
  {
    RunsHaveNoQuotes(query, word);
    if Runs(query, word) != [] {
      ParsePrinted(Runs(query, word));
    }
  }
}
