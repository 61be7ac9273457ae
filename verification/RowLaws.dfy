/** What expanding a line means: each row is the override of all parts up to it, and all rows
    together stay within the budget. */
module RowLaws {
  import opened Rows

  // ---- Splitting and joining ---------------------------------------------------------

  ghost predicate Without(text: string, c: char) {
    forall i | 0 <= i < |text| :: text[i] != c
  }

  lemma {:induction false} SplitPrefix(a: string, b: string, c: char, n: nat)
    requires n <= |a|
    ensures Split(a + b, c, n) == Split(a, c, n)
  {
    if n > 0 {
      SplitPrefix(a, b, c, n - 1);
    }
  }

  /** An item put after a separator comes out as the last item. */
  lemma {:induction false} SplitLast(text: string, c: char, item: string, n: nat)
    requires Without(item, c) && n <= |item|
    ensures Split(text + [c] + item, c, |text| + 1 + n) == Split(text, c, |text|) + [item[..n]]
  {
    var all := text + [c] + item;
    if n == 0 {
      assert all == text + ([c] + item);
      SplitPrefix(text, [c] + item, c, |text|);
      assert all[|text|] == c;
      assert item[..0] == "";
    } else {
      SplitLast(text, c, item, n - 1);
      assert all[|text| + n] == item[n - 1];
      assert item[..n] == item[..n - 1] + [item[n - 1]];
    }
  }

  lemma {:induction false} SplitSingle(item: string, c: char, n: nat)
    requires Without(item, c) && n <= |item|
    ensures Split(item, c, n) == [item[..n]]
  {
    if n > 0 {
      SplitSingle(item, c, n - 1);
      assert item[..n] == item[..n - 1] + [item[n - 1]];
    }
  }

  /** Splitting undoes joining. */
  lemma {:induction false} SplitJoin(items: seq<string>, c: char, n: nat)
    requires 0 < n <= |items| && forall i | 0 <= i < n :: Without(items[i], c)
    ensures Split(Join(items, c, n), c, |Join(items, c, n)|) == items[..n]
  {
    var item := items[n - 1];
    if n == 1 {
      assert item[..|item|] == item;
      SplitSingle(item, c, |item|);
    } else {
      SplitJoin(items, c, n - 1);
      SplitOneMore(Join(items, c, n - 1), c, item);
      assert items[..n] == items[..n - 1] + [item];
    }
  }

  lemma {:induction false} SplitOneMore(text: string, c: char, item: string)
    requires Without(item, c)
    ensures var all := text + [c] + item; Split(all, c, |all|) == Split(text, c, |text|) + [item]
  {
    SplitLast(text, c, item, |item|);
    assert item[..|item|] == item;
  }

  lemma {:induction false} SplitWithout(text: string, c: char, n: nat)
    requires n <= |text|
    ensures forall i | 0 <= i < |Split(text, c, n)| :: Without(Split(text, c, n)[i], c)
  {
    if n > 0 {
      SplitWithout(text, c, n - 1);
    }
  }

  /** A token has characters, none of them a space. */
  ghost predicate Clean(tokens: seq<string>) {
    forall i | 0 <= i < |tokens| :: tokens[i] != "" && Without(tokens[i], ' ')
  }

  lemma {:induction false} NonEmptyClean(items: seq<string>, n: nat)
    requires n <= |items| && forall i | 0 <= i < |items| :: Without(items[i], ' ')
    ensures Clean(NonEmpty(items, n))
  {
    if n > 0 {
      NonEmptyClean(items, n - 1);
    }
  }

  lemma {:induction false} TokensClean(text: string)
    ensures Clean(Tokens(text))
  {
    SplitWithout(text, ' ', |text|);
    NonEmptyClean(Split(text, ' ', |text|), |Split(text, ' ', |text|)|);
  }

  lemma {:induction false} NonEmptyAll(items: seq<string>, n: nat)
    requires n <= |items| && forall i | 0 <= i < n :: items[i] != ""
    ensures NonEmpty(items, n) == items[..n]
  {
    if n > 0 {
      NonEmptyAll(items, n - 1);
      assert items[..n] == items[..n - 1] + [items[n - 1]];
    }
  }

  /** The tokens of a row's text are the tokens it was made of. */
  lemma {:induction false} TokensJoined(tokens: seq<string>)
    requires Clean(tokens)
    ensures Tokens(Joined(tokens)) == tokens
  {
    assert tokens[..|tokens|] == tokens;
    if tokens == [] {
      assert Split("", ' ', 0) == [""];
      assert NonEmpty([""], 1) == NonEmpty([""], 0) == [];
    } else {
      SplitJoin(tokens, ' ', |tokens|);
      NonEmptyAll(tokens, |tokens|);
    }
  }

  lemma {:induction false} InheritedClean(previous: seq<string>, tokens: seq<string>, n: nat)
    requires n <= |previous| && Clean(previous)
    ensures Clean(Inherited(previous, tokens, n))
  {
    if n > 0 {
      InheritedClean(previous, tokens, n - 1);
    }
  }

  lemma {:induction false} LastPerFieldClean(tokens: seq<string>, n: nat)
    requires n <= |tokens| && Clean(tokens)
    ensures Clean(LastPerField(tokens, n))
  {
    if n > 0 {
      LastPerFieldClean(tokens, n - 1);
    }
  }

  // ---- Rows are overrides ----------------------------------------------------------------

  /** What the first `n` parts say, a later one over an earlier one. */
  function Override(parts: seq<string>, n: nat): map<string, string>
    requires n <= |parts|
  {
    if n == 0 then map[] else Override(parts, n - 1) + Fields(Tokens(parts[n - 1]))
  }

  lemma {:induction false} OverridePrefix(a: seq<string>, b: seq<string>, n: nat)
    requires n <= |a|
    ensures Override(a + b, n) == Override(a, n)
  {
    if n > 0 {
      OverridePrefix(a, b, n - 1);
    }
  }

  /** What a row of text says, its prefix taken off. */
  function Says(row: string, prefix: string): map<string, string>
    requires |prefix| <= |row|
  {
    Fields(Tokens(row[|prefix|..]))
  }

  ghost predicate RowSaysTo(rows: seq<string>, prefix: string, parts: seq<string>, i: nat)
    requires i < |rows| == |parts|
  {
    prefix <= rows[i] && Says(rows[i], prefix) == Override(parts, i + 1)
  }

  /** Row `i` says what the parts up to the `i`-th say. */
  ghost predicate RowsSay(rows: seq<string>, prefix: string, parts: seq<string>) {
    && |rows| == |parts|
    && forall i {:trigger RowSaysTo(rows, prefix, parts, i)} | 0 <= i < |rows| :: RowSaysTo(rows, prefix, parts, i)
  }

  ghost predicate Faithful(s: State, prefix: string, parts: seq<string>) {
    s.inheriting ==>
      && !s.stopped
      && RowsSay(s.rows, prefix, parts)
      && Clean(s.previous) && OncePerField(s.previous)
      && Fields(s.previous) == Override(parts, |parts|)
  }

  lemma {:induction false} RowSays(prefix: string, tokens: seq<string>)
    requires Clean(tokens)
    ensures prefix <= prefix + Joined(tokens) && Says(prefix + Joined(tokens), prefix) == Fields(tokens)
  {
    assert (prefix + Joined(tokens))[|prefix|..] == Joined(tokens);
    TokensJoined(tokens);
  }

  lemma {:induction false} RowsSayAppend(rows: seq<string>, prefix: string, parts: seq<string>, row: string, part: string)
    requires RowsSay(rows, prefix, parts) && prefix <= row
    requires Says(row, prefix) == Override(parts, |parts|) + Fields(Tokens(part))
    ensures RowsSay(rows + [row], prefix, parts + [part])
  {
    forall i | 0 <= i < |rows + [row]|
      ensures RowSaysTo(rows + [row], prefix, parts + [part], i)
    {
      if i < |rows| {
        assert RowSaysTo(rows, prefix, parts, i);
        OverridePrefix(parts, [part], i + 1);
      } else {
        OverridePrefix(parts, [part], |parts|);
      }
    }
  }

  /** What a resolved row says, and what is carried to the next. */
  lemma {:induction false} Carried(previous: seq<string>, tokens: seq<string>)
    requires Clean(previous) && Clean(tokens)
    ensures var resolved := ResolveRow(previous, tokens);
      var next := LastPerField(resolved, |resolved|);
      && Clean(resolved) && Fields(resolved) == Fields(previous) + Fields(tokens)
      && Clean(next) && OncePerField(next) && Fields(next) == Fields(resolved)
  {
    var resolved := ResolveRow(previous, tokens);
    InheritedClean(previous, tokens, |previous|);
    LastPerFieldClean(resolved, |resolved|);
    LastPerFieldKeeps(resolved, |resolved|);
    ResolveOverrides(previous, tokens);
  }

  lemma {:induction false} StepInherits(s: State, prefix: string, part: string, limit: nat)
    requires s.inheriting && !s.stopped && part != "" && Step(s, prefix, part, limit).inheriting
    ensures var resolved := ResolveRow(s.previous, Tokens(part));
      var row := prefix + Joined(resolved);
      Step(s, prefix, part, limit) == State(s.rows + [row], s.used + |row|, LastPerField(resolved, |resolved|), true, false)
  {
    assert InheritLimit(limit) <= DropLimit(limit);
  }

  lemma {:induction false} FaithfulStep(s: State, prefix: string, parts: seq<string>, part: string, limit: nat)
    requires Faithful(s, prefix, parts) && s.inheriting && part != ""
    ensures Faithful(Step(s, prefix, part, limit), prefix, parts + [part])
  {
    if Step(s, prefix, part, limit).inheriting {
      var resolved := ResolveRow(s.previous, Tokens(part));
      StepInherits(s, prefix, part, limit);
      TokensClean(part);
      Carried(s.previous, Tokens(part));
      RowSays(prefix, resolved);
      RowsSayAppend(s.rows, prefix, parts, prefix + Joined(resolved), part);
      OverridePrefix(parts, [part], |parts|);
    }
  }

  lemma {:induction false} ExpandFaithful(prefix: string, parts: seq<string>, n: nat, limit: nat)
    requires n <= |parts|
    ensures Faithful(Expand(prefix, parts, n, limit), prefix, NonEmpty(parts, n))
  {
    if n > 0 {
      ExpandFaithful(prefix, parts, n - 1, limit);
      var s := Expand(prefix, parts, n - 1, limit);
      if parts[n - 1] != "" && s.inheriting {
        FaithfulStep(s, prefix, NonEmpty(parts, n - 1), parts[n - 1], limit);
      }
    }
  }

  lemma {:induction false} ExpandAppends(prefix: string, parts: seq<string>, n: nat, m: nat, limit: nat)
    requires n <= m <= |parts|
    ensures Expand(prefix, parts, n, limit).rows <= Expand(prefix, parts, m, limit).rows
    decreases m
  {
    if n < m {
      ExpandAppends(prefix, parts, n, m - 1, limit);
    }
  }

  /** Whether the rows of a line's first `n` parts still inherit. */
  predicate Inheriting(line: string, n: nat)
    requires n <= |PartsOf(line)|
  {
    Expand(PrefixOf(line), PartsOf(line), n, |line|).inheriting
  }

  /** Row expansion refines override: while a line's rows inherit, its `i`-th row says exactly what
      all non-empty parts up to the `i`-th say, the later over the earlier; none of them is dropped;
      and what is carried on names each field once. */
  lemma {:induction false} RowsAreOverrides(line: string, n: nat, i: nat)
    requires '|' in RestOf(line) && n <= |PartsOf(line)| && Inheriting(line, n)
    requires i < |NonEmpty(PartsOf(line), n)|
    ensures var rows, prefix, parts := SplitRows(line), PrefixOf(line), NonEmpty(PartsOf(line), n);
            && |parts| <= |rows| && prefix <= rows[i]
            && Says(rows[i], prefix) == Override(parts, i + 1)
            && (n == |PartsOf(line)| ==> |rows| == |parts|)
    ensures OncePerField(Expand(PrefixOf(line), PartsOf(line), n, |line|).previous)
  {
    var prefix, all := PrefixOf(line), PartsOf(line);
    var s := Expand(prefix, all, n, |line|);
    ExpandFaithful(prefix, all, n, |line|);
    assert RowSaysTo(s.rows, prefix, NonEmpty(all, n), i);
    ExpandAppends(prefix, all, n, |all|, |line|);
    assert SplitRows(line)[i] == s.rows[i];
  }

  // ---- The budget --------------------------------------------------------------------------

  function Total(rows: seq<string>, n: nat): nat
    requires n <= |rows|
  {
    if n == 0 then 0 else Total(rows, n - 1) + |rows[n - 1]|
  }

  lemma {:induction false} TotalPrefix(a: seq<string>, b: seq<string>, n: nat)
    requires n <= |a|
    ensures Total(a + b, n) == Total(a, n)
  {
    if n > 0 {
      TotalPrefix(a, b, n - 1);
    }
  }

  ghost predicate Budgeted(s: State, limit: nat) {
    && s.used == Total(s.rows, |s.rows|) && s.used <= DropLimit(limit)
    && (s.inheriting ==> s.used <= InheritLimit(limit))
  }

  lemma {:induction false} StepWithin(s: State, prefix: string, part: string, limit: nat)
    requires Budgeted(s, limit)
    ensures Budgeted(Step(s, prefix, part, limit), limit)
  {
    var c := Choose(s, prefix, Tokens(part), InheritLimit(limit));
    TotalPrefix(s.rows, [c.row], |s.rows|);
    if !s.stopped && part != "" {
      PartTaken(s, prefix, part, limit, c);
    }
  }

  lemma {:induction false} WithinBudget(prefix: string, parts: seq<string>, n: nat, limit: nat)
    requires n <= |parts|
    ensures Budgeted(Expand(prefix, parts, n, limit), limit)
  {
    if n > 0 {
      WithinBudget(prefix, parts, n - 1, limit);
      StepWithin(Expand(prefix, parts, n - 1, limit), prefix, parts[n - 1], limit);
    }
  }

  /** The rows of a line of `n` characters hold together at most twice the larger of `4n` and
      64 KiB, and at most `64n`. */
  lemma {:induction false} GrowthBound(line: string)
    ensures var rows := SplitRows(line);
      Total(rows, |rows|) <= Min(2 * Max(4 * |line|, 65536), 64 * |line|)
  {
    var parts := PartsOf(line);
    WithinBudget(PrefixOf(line), parts, |parts|, |line|);
    assert Total([line], 1) == Total([line], 0) + |line|;
  }

  lemma {:induction false} SplitTotal(text: string, c: char, n: nat)
    requires n <= |text|
    ensures var r := Split(text, c, n); Total(r, |r|) + |r| - 1 == n
  {
    if n == 0 {
      assert Total([""], 1) == Total([""], 0);
    } else {
      SplitTotal(text, c, n - 1);
      var r := Split(text, c, n - 1);
      TotalPrefix(r, [""], |r|);
      TotalUpdate(r, r[|r| - 1] + [text[n - 1]], |r| - 1);
    }
  }

  lemma {:induction false} TotalUpdate(r: seq<string>, item: string, n: nat)
    requires n < |r|
    ensures Total(r[|r| - 1 := item], n) == Total(r, n)
  {
    if n > 0 {
      TotalUpdate(r, item, n - 1);
    }
  }

  lemma {:induction false} NonEmptyTotal(items: seq<string>, n: nat)
    requires n <= |items|
    ensures var r := NonEmpty(items, n); Total(r, |r|) == Total(items, n) && |r| <= n
  {
    if n > 0 {
      NonEmptyTotal(items, n - 1);
      TotalPrefix(NonEmpty(items, n - 1), [items[n - 1]], |NonEmpty(items, n - 1)|);
    }
  }

  lemma {:induction false} JoinLength(items: seq<string>, c: char, n: nat)
    requires n <= |items|
    ensures |Join(items, c, n)| == Total(items, n) + if n == 0 then 0 else n - 1
  {
    if n > 0 {
      JoinLength(items, c, n - 1);
    }
  }

  /** A part's own tokens are no longer than the part. */
  lemma {:induction false} TokensShorter(part: string)
    ensures |Joined(Tokens(part))| <= |part|
  {
    var items := Split(part, ' ', |part|);
    SplitTotal(part, ' ', |part|);
    NonEmptyTotal(items, |items|);
    JoinLength(Tokens(part), ' ', |Tokens(part)|);
  }

  lemma {:induction false} TotalGrows(items: seq<string>, k: nat, n: nat)
    requires k <= n <= |items|
    ensures Total(items, k) <= Total(items, n)
    decreases n
  {
    if k < n {
      TotalGrows(items, k, n - 1);
    }
  }

  /** With no name to repeat, a line of 2048 characters or more never runs out of budget. */
  lemma {:induction false} NamelessKeepsAll(parts: seq<string>, n: nat, limit: nat)
    requires n <= |parts| && limit >= 2048 && Total(parts, |parts|) <= limit
    ensures var s := Expand("", parts, n, limit);
      && !s.stopped && |s.rows| == |NonEmpty(parts, n)|
      && s.used <= InheritLimit(limit) + Total(parts, n)
  {
    if n > 0 {
      NamelessKeepsAll(parts, n - 1, limit);
      WithinBudget("", parts, n - 1, limit);
      TokensShorter(parts[n - 1]);
      TotalGrows(parts, n, |parts|);
      assert DropLimit(limit) == 2 * InheritLimit(limit) && limit <= InheritLimit(limit);
      var s := Expand("", parts, n - 1, limit);
      var tokens := Tokens(parts[n - 1]);
      assert "" + Joined(tokens) == Joined(tokens);
    }
  }

  /** A nameless batch of 2048 characters or more yields exactly one row for each non-empty
      part, when there is one. */
  lemma {:induction false} OneRowPerPart(line: string)
    requires NameOf(line) == "" && '|' in line && |line| >= 2048
    ensures var parts := NonEmpty(PartsOf(line), |PartsOf(line)|);
      |SplitRows(line)| == if parts == [] then 1 else |parts|
  {
    var parts := PartsOf(line);
    SplitTotal(line, '|', |line|);
    NamelessKeepsAll(parts, |parts|, |line|);
  }
}
