/** Rows of a batched line. What a part does not say it takes over from the row before, as long as
    the line's budget of characters lasts. */
module Rows {

  // ---- Text -----------------------------------------------------------------------

  /** `text` cut at every `c`; the first `n` characters of it. */
  function Split(text: string, c: char, n: nat): (r: seq<string>)
    requires n <= |text|
    ensures |r| > 0
  {
    if n == 0 then [""]
    else
      var r := Split(text, c, n - 1);
      if text[n - 1] == c then r + [""] else r[|r| - 1 := r[|r| - 1] + [text[n - 1]]]
  }

  /** The first `n` of `items` with `c` between them. */
  function Join(items: seq<string>, c: char, n: nat): string
    requires n <= |items|
  {
    if n == 0 then ""
    else if n == 1 then items[0]
    else Join(items, c, n - 1) + [c] + items[n - 1]
  }

  /** The first `n` of `items` without the empty ones. */
  function NonEmpty(items: seq<string>, n: nat): seq<string>
    requires n <= |items|
  {
    if n == 0 then []
    else if items[n - 1] == "" then NonEmpty(items, n - 1)
    else NonEmpty(items, n - 1) + [items[n - 1]]
  }

  /** A part cut at its spaces, without what is empty. */
  function Tokens(text: string): seq<string> {
    var items := Split(text, ' ', |text|);
    NonEmpty(items, |items|)
  }

  function Joined(tokens: seq<string>): string {
    Join(tokens, ' ', |tokens|)
  }

  /** The first position of `c` from `i` on, or -1. */
  function IndexOf(text: string, c: char, i: nat): (r: int)
    requires i <= |text|
    ensures -1 <= r < |text|
    decreases |text| - i
  {
    if i == |text| then -1
    else if text[i] == c then i
    else IndexOf(text, c, i + 1)
  }

  predicate IsCommandName(token: string) {
    |token| > 0 && forall i | 0 <= i < |token| ::
      'A' <= token[i] <= 'Z' || 'a' <= token[i] <= 'z' || '0' <= token[i] <= '9'
  }

  function FieldName(token: string): string {
    var i := IndexOf(token, '=', 0);
    if i > 0 then token[..i] else token
  }

  // ---- Fields -----------------------------------------------------------------------

  /** What a list of tokens says: for each field, the last token that names it. */
  function FieldMap(tokens: seq<string>, n: nat): map<string, string>
    requires n <= |tokens|
  {
    if n == 0 then map[] else FieldMap(tokens, n - 1)[FieldName(tokens[n - 1]) := tokens[n - 1]]
  }

  function Fields(tokens: seq<string>): map<string, string> {
    FieldMap(tokens, |tokens|)
  }

  ghost predicate OncePerField(tokens: seq<string>) {
    forall i, j | 0 <= i < j < |tokens| :: FieldName(tokens[i]) != FieldName(tokens[j])
  }

  /** The first `n` tokens of `previous` whose field no token of `tokens` names. */
  function Inherited(previous: seq<string>, tokens: seq<string>, n: nat): seq<string>
    requires n <= |previous|
  {
    if n == 0 then []
    else if FieldName(previous[n - 1]) in Fields(tokens) then Inherited(previous, tokens, n - 1)
    else Inherited(previous, tokens, n - 1) + [previous[n - 1]]
  }

  /** What a row says in full: the tokens it inherits, before its own. */
  function ResolveRow(previous: seq<string>, tokens: seq<string>): seq<string> {
    Inherited(previous, tokens, |previous|) + tokens
  }

  /** The position of the token of a field, or -1. */
  function FieldAt(kept: seq<string>, name: string, n: nat): (i: int)
    requires n <= |kept|
    ensures -1 <= i < n && (i >= 0 ==> FieldName(kept[i]) == name)
    ensures i < 0 ==> forall j | 0 <= j < n :: FieldName(kept[j]) != name
  {
    if n == 0 then -1
    else if FieldName(kept[n - 1]) == name then n - 1
    else FieldAt(kept, name, n - 1)
  }

  /** `n` tokens with one left for each field: a later one takes the place of an earlier. */
  function LastPerField(tokens: seq<string>, n: nat): seq<string>
    requires n <= |tokens|
  {
    if n == 0 then []
    else
      var kept := LastPerField(tokens, n - 1);
      var i := FieldAt(kept, FieldName(tokens[n - 1]), |kept|);
      if i < 0 then kept + [tokens[n - 1]] else kept[i := tokens[n - 1]]
  }

  lemma {:induction false} FieldMapKeys(tokens: seq<string>, n: nat, name: string)
    requires n <= |tokens|
    ensures name in FieldMap(tokens, n) <==> exists i | 0 <= i < n :: FieldName(tokens[i]) == name
  {
    if n > 0 {
      FieldMapKeys(tokens, n - 1, name);
    }
  }

  lemma {:induction false} FieldMapAppend(a: seq<string>, b: seq<string>, n: nat)
    requires n <= |b|
    ensures FieldMap(a + b, |a| + n) == Fields(a) + FieldMap(b, n)
  {
    if n == 0 {
      FieldMapPrefix(a, b, |a|);
    } else {
      FieldMapAppend(a, b, n - 1);
    }
  }

  lemma {:induction false} FieldMapPrefix(a: seq<string>, b: seq<string>, n: nat)
    requires n <= |a|
    ensures FieldMap(a + b, n) == FieldMap(a, n)
  {
    if n > 0 {
      FieldMapPrefix(a, b, n - 1);
    }
  }

  lemma {:induction false} InheritedMap(previous: seq<string>, tokens: seq<string>, n: nat)
    requires n <= |previous|
    ensures Fields(Inherited(previous, tokens, n)) == FieldMap(previous, n) - Fields(tokens).Keys
  {
    if n > 0 {
      InheritedMap(previous, tokens, n - 1);
      var kept := Inherited(previous, tokens, n - 1);
      FieldMapAppend(kept, [previous[n - 1]], 1);
      assert Fields(kept + [previous[n - 1]]) == FieldMap(kept + [previous[n - 1]], |kept| + 1);
      assert FieldMap([previous[n - 1]], 1) == map[FieldName(previous[n - 1]) := previous[n - 1]];
    }
  }

  /** A resolved row says what the previous row said, overridden by what its own tokens say. */
  lemma {:induction false} ResolveOverrides(previous: seq<string>, tokens: seq<string>)
    ensures Fields(ResolveRow(previous, tokens)) == Fields(previous) + Fields(tokens)
  {
    InheritedMap(previous, tokens, |previous|);
    FieldMapAppend(Inherited(previous, tokens, |previous|), tokens, |tokens|);
  }

  lemma {:induction false} OnceAppend(kept: seq<string>, t: string)
    requires OncePerField(kept) && forall j | 0 <= j < |kept| :: FieldName(kept[j]) != FieldName(t)
    ensures OncePerField(kept + [t])
    ensures Fields(kept + [t]) == Fields(kept)[FieldName(t) := t]
  {
    FieldMapPrefix(kept, [t], |kept|);
  }

  lemma {:induction false} OnceUpdate(kept: seq<string>, i: nat, t: string)
    requires OncePerField(kept) && i < |kept| && FieldName(kept[i]) == FieldName(t)
    ensures OncePerField(kept[i := t])
    ensures Fields(kept[i := t]) == Fields(kept)[FieldName(t) := t]
  {
    FieldMapUpdate(kept, i, t, |kept|);
  }

  /** One token a field is left, and together they say what all of them said. */
  lemma {:induction false} LastPerFieldKeeps(tokens: seq<string>, n: nat)
    requires n <= |tokens|
    ensures OncePerField(LastPerField(tokens, n))
    ensures Fields(LastPerField(tokens, n)) == FieldMap(tokens, n)
  {
    if n > 0 {
      LastPerFieldKeeps(tokens, n - 1);
      var kept := LastPerField(tokens, n - 1);
      var i := FieldAt(kept, FieldName(tokens[n - 1]), |kept|);
      if i < 0 {
        OnceAppend(kept, tokens[n - 1]);
      } else {
        OnceUpdate(kept, i, tokens[n - 1]);
      }
    }
  }

  lemma {:induction false} FieldMapUpdate(kept: seq<string>, i: nat, t: string, n: nat)
    requires i < |kept| && n <= |kept| && OncePerField(kept) && FieldName(kept[i]) == FieldName(t)
    ensures FieldMap(kept[i := t], n) == if i < n then FieldMap(kept, n)[FieldName(t) := t] else FieldMap(kept, n)
  {
    if n > 0 {
      FieldMapUpdate(kept, i, t, n - 1);
      if i < n - 1 {
        assert FieldName(kept[i]) != FieldName(kept[n - 1]);
      }
    }
  }

  // ---- The budget --------------------------------------------------------------------

  const MIN_ROW_BUDGET: nat := 64 * 1024
  const ROW_GROWTH: nat := 4
  const MAX_ROW_AMPLIFICATION: nat := 64

  function Max(a: nat, b: nat): nat { if a > b then a else b }
  function Min(a: nat, b: nat): nat { if a < b then a else b }

  function DropLimit(n: nat): nat {
    Min(2 * Max(ROW_GROWTH * n, MIN_ROW_BUDGET), MAX_ROW_AMPLIFICATION * n)
  }

  function InheritLimit(n: nat): nat {
    Min(Max(ROW_GROWTH * n, MIN_ROW_BUDGET), DropLimit(n))
  }

  // ---- Expanding -----------------------------------------------------------------------

  /** The rows so far, and what the next may inherit. `stopped` is past the row budget. */
  datatype State = State(rows: seq<string>, used: nat, previous: seq<string>, inheriting: bool, stopped: bool)

  /** The row a part becomes, and what the next may inherit. */
  datatype Choice = Choice(row: string, previous: seq<string>, inheriting: bool)

  function Choose(s: State, prefix: string, tokens: seq<string>, inheritLimit: nat): Choice {
    if s.inheriting then
      var resolved := ResolveRow(s.previous, tokens);
      var inherited := prefix + Joined(resolved);
      if s.used + |inherited| <= inheritLimit then Choice(inherited, LastPerField(resolved, |resolved|), true)
      else Choice(prefix + Joined(tokens), [], false)
    else Choice(prefix + Joined(tokens), s.previous, false)
  }

  /** One part of the line, `limit` being the length of the line. */
  function Step(s: State, prefix: string, part: string, limit: nat): State {
    if s.stopped || part == "" then s
    else
      var c := Choose(s, prefix, Tokens(part), InheritLimit(limit));
      if s.used + |c.row| > DropLimit(limit) then s.(previous := c.previous, inheriting := c.inheriting, stopped := true)
      else State(s.rows + [c.row], s.used + |c.row|, c.previous, c.inheriting, false)
  }

  const START: State := State([], 0, [], true, false)

  function Expand(prefix: string, parts: seq<string>, n: nat, limit: nat): State
    requires n <= |parts|
  {
    if n == 0 then START else Step(Expand(prefix, parts, n - 1, limit), prefix, parts[n - 1], limit)
  }

  function NameOf(line: string): string {
    var space := IndexOf(line, ' ', 0);
    var head := if space < 0 then line else line[..space];
    if IsCommandName(head) then head else ""
  }

  function RestOf(line: string): string {
    var space := IndexOf(line, ' ', 0);
    if NameOf(line) == "" then line else if space < 0 then "" else line[space + 1..]
  }

  function PrefixOf(line: string): string {
    if NameOf(line) == "" then "" else NameOf(line) + " "
  }

  function PartsOf(line: string): seq<string> {
    Split(RestOf(line), '|', |RestOf(line)|)
  }

  function SplitRows(line: string): seq<string> {
    if '|' !in RestOf(line) then [line]
    else
      var rows := Expand(PrefixOf(line), PartsOf(line), |PartsOf(line)|, |line|).rows;
      if rows == [] then [line] else rows
  }

  // ---- The methods ------------------------------------------------------------------------

  /** A part of the line while there is room. */
  lemma {:induction false} PartTaken(s: State, prefix: string, part: string, limit: nat, c: Choice)
    requires !s.stopped && part != "" && c == Choose(s, prefix, Tokens(part), InheritLimit(limit))
    ensures Step(s, prefix, part, limit) ==
      if s.used + |c.row| > DropLimit(limit) then s.(previous := c.previous, inheriting := c.inheriting, stopped := true)
      else State(s.rows + [c.row], s.used + |c.row|, c.previous, c.inheriting, false)
  {
  }

  lemma {:induction false} ExpandTaken(prefix: string, parts: seq<string>, n: nat, limit: nat, c: Choice)
    requires n < |parts| && parts[n] != "" && !Expand(prefix, parts, n, limit).stopped
    requires c == Choose(Expand(prefix, parts, n, limit), prefix, Tokens(parts[n]), InheritLimit(limit))
    ensures var s := Expand(prefix, parts, n, limit);
      Expand(prefix, parts, n + 1, limit) ==
      if s.used + |c.row| > DropLimit(limit) then s.(previous := c.previous, inheriting := c.inheriting, stopped := true)
      else State(s.rows + [c.row], s.used + |c.row|, c.previous, c.inheriting, false)
  {
    PartTaken(Expand(prefix, parts, n, limit), prefix, parts[n], limit, c);
  }

  /** The rows as they come out of all parts. */
  method ExpandParts(prefix: string, parts: seq<string>, limit: nat) returns (rows: seq<string>)
    ensures rows == Expand(prefix, parts, |parts|, limit).rows
  {
    rows := [];
    var used: nat, previous: seq<string>, inheriting := 0, [], true;
    for n := 0 to |parts|
      invariant Expand(prefix, parts, n, limit) == State(rows, used, previous, inheriting, false)
    {
      ghost var s := Expand(prefix, parts, n, limit);
      if parts[n] == "" {
        continue;
      }
      var row;
      row, previous, inheriting := ChooseRow(s, prefix, Tokens(parts[n]), used, previous, inheriting, InheritLimit(limit));
      ExpandTaken(prefix, parts, n, limit, Choice(row, previous, inheriting));
      if used + |row| > DropLimit(limit) {
        StoppedStays(prefix, parts, n + 1, |parts|, limit);
        break;
      }
      used := used + |row|;
      rows := rows + [row];
    }
  }

  /** `at` holds the position of each field's token. */
  ghost predicate Indexed(at: map<string, nat>, kept: seq<string>) {
    && (forall i | 0 <= i < |kept| :: FieldName(kept[i]) in at && at[FieldName(kept[i])] == i)
    && (forall name | name in at :: at[name] < |kept| && FieldName(kept[at[name]]) == name)
  }

  lemma {:induction false} IndexedAt(at: map<string, nat>, kept: seq<string>, key: string)
    requires Indexed(at, kept)
    ensures FieldAt(kept, key, |kept|) == if key in at then at[key] else -1
  {
    if key in at {
      assert FieldName(kept[at[key]]) == key;
    }
    var i := FieldAt(kept, key, |kept|);
  }

  lemma {:induction false} IndexedNext(at: map<string, nat>, kept: seq<string>, token: string)
    requires Indexed(at, kept)
    ensures FieldName(token) in at ==> Indexed(at, kept[at[FieldName(token)] := token])
    ensures FieldName(token) !in at ==> Indexed(at[FieldName(token) := |kept|], kept + [token])
  {
  }

  method LastTokens(tokens: seq<string>) returns (kept: seq<string>)
    ensures kept == LastPerField(tokens, |tokens|)
  {
    var at: map<string, nat> := map[];
    kept := [];
    for n := 0 to |tokens|
      invariant kept == LastPerField(tokens, n) && Indexed(at, kept)
    {
      var key := FieldName(tokens[n]);
      IndexedAt(at, kept, key);
      IndexedNext(at, kept, tokens[n]);
      if key !in at {
        at := at[key := |kept|];
        kept := kept + [tokens[n]];
      } else {
        kept := kept[at[key] := tokens[n]];
      }
    }
  }

  method ChooseRow(ghost s: State, prefix: string, tokens: seq<string>, used: nat, previous: seq<string>,
                   inheriting: bool, inheritLimit: nat)
    returns (row: string, previous': seq<string>, inheriting': bool)
    requires s.used == used && s.previous == previous && s.inheriting == inheriting
    ensures Choice(row, previous', inheriting') == Choose(s, prefix, tokens, inheritLimit)
  {
    row, previous', inheriting' := prefix + Joined(tokens), previous, inheriting;
    if inheriting {
      var resolved := ResolveRow(previous, tokens);
      var inherited := prefix + Joined(resolved);
      if used + |inherited| <= inheritLimit {
        row := inherited;
        previous' := LastTokens(resolved);
      } else {
        inheriting' := false;
        previous' := [];
      }
    }
  }

  method SplitCommandRows(line: string) returns (rows: seq<string>)
    ensures rows == SplitRows(line)
  {
    var rest := RestOf(line);
    if '|' !in rest {
      return [line];
    }
    rows := ExpandParts(PrefixOf(line), Split(rest, '|', |rest|), |line|);
    if |rows| == 0 {
      rows := [line];
    }
  }

  lemma {:induction false} StoppedStays(prefix: string, parts: seq<string>, k: nat, n: nat, limit: nat)
    requires k <= n <= |parts| && Expand(prefix, parts, k, limit).stopped
    ensures Expand(prefix, parts, n, limit) == Expand(prefix, parts, k, limit)
    decreases n
  {
    if k < n {
      StoppedStays(prefix, parts, k, n - 1, limit);
    }
  }
}
