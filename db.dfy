/**
 * The database helper of lib/db.ts: translation of `?` placeholders into
 * PostgreSQL's numbered `$n` parameters, the result shaping of the four query
 * helpers, and the acquire / BEGIN / COMMIT or ROLLBACK / release protocol of
 * `transaction`. The pool and the database server are parameters: a statement
 * runner for the helpers, and the settled outcome of each awaited step for
 * `transaction`.
 */
module Db {
  import opened Wrappers
  import Decimal

  // ---------------------------------------------------------------------------
  // Placeholder translation
  // ---------------------------------------------------------------------------

  /** Number of occurrences of `c` in `s`. */
  function Occurrences(s: string, c: char): nat
  {
    if s == [] then 0 else (if s[0] == c then 1 else 0) + Occurrences(s[1..], c)
  }

  lemma {:induction false} OccurrencesAppend(a: string, b: string, c: char)
    ensures Occurrences(a + b, c) == Occurrences(a, c) + Occurrences(b, c)
  {
    if a != [] {
      assert (a + b)[0] == a[0] && (a + b)[1..] == a[1..] + b;
      OccurrencesAppend(a[1..], b, c);
    } else {
      assert a + b == b;
    }
  }

  lemma {:induction false} OccurrencesAbsent(s: string, c: char)
    requires c !in s
    ensures Occurrences(s, c) == 0
  {
    if s != [] {
      assert s[0] != c && forall x :: x in s[1..] ==> x in s;
      OccurrencesAbsent(s[1..], c);
    }
  }

  /** What one character of the statement becomes when the next placeholder number is `n`. */
  function Piece(c: char, n: nat): string
  {
    if c == '?' then "$" + Decimal.NatToString(n) else [c]
  }

  /**
   * `sql` with every `?`, left to right, replaced by `$next`, `$(next+1)`, ...
   * Every `?` counts, also one inside a quoted SQL literal.
   */
  function Rewrite(sql: string, next: nat): (r: string)
    ensures |r| >= |sql|
  {
    if sql == [] then []
    else Piece(sql[0], next) + Rewrite(sql[1..], if sql[0] == '?' then next + 1 else next)
  }

  /** No `?` survives the rewrite, not even one inside a quoted literal. */
  lemma {:induction false} RewriteRemovesPlaceholders(sql: string, next: nat)
    ensures Occurrences(Rewrite(sql, next), '?') == 0
  {
    if sql != [] {
      var n := if sql[0] == '?' then next + 1 else next;
      RewriteRemovesPlaceholders(sql[1..], n);
      OccurrencesAppend(Piece(sql[0], next), Rewrite(sql[1..], n), '?');
      if sql[0] == '?' {
        var digits := Decimal.NatToString(next);
        NoPlaceholderInDigits(digits);
        OccurrencesAppend("$", digits, '?');
      }
    }
  }

  lemma {:induction false} NoPlaceholderInDigits(s: string)
    requires Decimal.AllDigits(s)
    ensures Occurrences(s, '?') == 0 && Occurrences(s, '$') == 0
  {
    if s != [] {
      NoPlaceholderInDigits(s[1..]);
    }
  }

  /** Rewriting distributes over concatenation; the right part continues the numbering. */
  lemma {:induction false} RewriteAppend(a: string, b: string, next: nat)
    ensures Rewrite(a + b, next) == Rewrite(a, next) + Rewrite(b, next + Occurrences(a, '?'))
  {
    if a != [] {
      assert (a + b)[0] == a[0] && (a + b)[1..] == a[1..] + b;
      RewriteAppend(a[1..], b, if a[0] == '?' then next + 1 else next);
    } else {
      assert a + b == b;
    }
  }

  /** One step of a left-to-right scan that has produced `done` for `sql[..i]`. */
  lemma RewriteStep(sql: string, i: nat, done: string, next: nat)
    requires i < |sql|
    requires done + Rewrite(sql[i..], next) == Rewrite(sql, 1)
    ensures (done + Piece(sql[i], next)) + Rewrite(sql[i + 1..], if sql[i] == '?' then next + 1 else next)
      == Rewrite(sql, 1)
  {
    var rest, n := sql[i..], if sql[i] == '?' then next + 1 else next;
    assert rest != [] && rest[0] == sql[i] && rest[1..] == sql[i + 1..];
    assert Rewrite(rest, next) == Piece(sql[i], next) + Rewrite(sql[i + 1..], n);
    assert (done + Piece(sql[i], next)) + Rewrite(sql[i + 1..], n)
      == done + (Piece(sql[i], next) + Rewrite(sql[i + 1..], n));
  }

  /** A statement without `?` is left as it is. */
  lemma {:induction false} RewriteWithoutPlaceholders(sql: string, next: nat)
    requires Occurrences(sql, '?') == 0
    ensures Rewrite(sql, next) == sql
  {
    if sql != [] {
      RewriteWithoutPlaceholders(sql[1..], next);
    }
  }

  /**
   * Position by position: the character at index `i` becomes its `Piece`,
   * numbered after the `?`s to its left, between the rewrites of the text
   * before and after it. So the k-th `?` (from 0) becomes `$(next+k)` and
   * every other character stays, in order.
   */
  lemma RewriteAt(sql: string, i: nat, next: nat)
    requires i < |sql|
    ensures Rewrite(sql, next) ==
      Rewrite(sql[..i], next)
      + Piece(sql[i], next + Occurrences(sql[..i], '?'))
      + Rewrite(sql[i + 1..], next + Occurrences(sql[..i + 1], '?'))
  {
    var before, after := sql[..i], sql[i + 1..];
    assert sql == before + ([sql[i]] + after);
    assert sql[..i + 1] == before + [sql[i]];
    RewriteAppend(before, [sql[i]] + after, next);
    var n := next + Occurrences(before, '?');
    assert ([sql[i]] + after)[1..] == after;
    OccurrencesAppend(before, [sql[i]], '?');
  }

  /**
   * The output has one `$` marker per `?` of the input, on top of the `$`s
   * the input already had, whatever the number of parameters.
   */
  lemma {:induction false} RewriteMarkerCount(sql: string, next: nat)
    ensures Occurrences(Rewrite(sql, next), '$') == Occurrences(sql, '$') + Occurrences(sql, '?')
  {
    if sql != [] {
      var n := if sql[0] == '?' then next + 1 else next;
      RewriteMarkerCount(sql[1..], n);
      OccurrencesAppend(Piece(sql[0], next), Rewrite(sql[1..], n), '$');
      if sql[0] == '?' {
        var digits := Decimal.NatToString(next);
        NoPlaceholderInDigits(digits);
        OccurrencesAppend("$", digits, '$');
      }
    }
  }

  /**
   * Reads rewritten text back: each `$n` marker carrying the expected number
   * `n` becomes `?` again and numbering moves on.
   */
  function Restore(text: string, next: nat): string
    decreases |text|
  {
    if text == [] then []
    else
      var marker := "$" + Decimal.NatToString(next);
      if marker <= text then "?" + Restore(text[|marker|..], next + 1)
      else [text[0]] + Restore(text[1..], next)
  }

  /** For a statement without literal `$`, the rewrite loses nothing: `Restore` undoes it. */
  lemma {:induction false} RestoreRewrite(sql: string, next: nat)
    requires '$' !in sql
    ensures Restore(Rewrite(sql, next), next) == sql
  {
    if sql != [] {
      var text := Rewrite(sql, next);
      var marker := "$" + Decimal.NatToString(next);
      if sql[0] == '?' {
        var rest := Rewrite(sql[1..], next + 1);
        assert text == marker + rest;
        assert text[|marker|..] == rest;
        RestoreRewrite(sql[1..], next + 1);
      } else {
        assert text[0] == sql[0] && text[1..] == Rewrite(sql[1..], next);
        assert !(marker <= text) by {
          assert marker[0] == '$' != text[0];
        }
        RestoreRewrite(sql[1..], next);
      }
    }
  }

  /** A statement in PostgreSQL's native form and its parameters, as handed to `pool.query`. */
  datatype Statement<P> = Statement(sql: string, params: seq<P>)

  /**
   * `convertToPostgreSQLParams`: with no parameters (absent or empty) the SQL
   * is kept verbatim and the parameter list is empty; otherwise every `?` is
   * numbered from 1 and the parameters are passed on unchanged.
   */
  function Convert<P>(sql: string, params: Option<seq<P>>): (r: Statement<P>)
    ensures params.None? || params.value == [] ==> r == Statement(sql, [])
    ensures params.Some? && params.value != [] ==>
      r.params == params.value && Occurrences(r.sql, '?') == 0
  {
    if params.None? || params.value == [] then Statement(sql, [])
    else
      RewriteRemovesPlaceholders(sql, 1);
      Statement(Rewrite(sql, 1), params.value)
  }

  /**
   * The same translation as the source writes it: a left-to-right scan with a
   * counter `paramIndex` that starts at 1 and moves on at every `?`.
   */
  method ConvertToPostgreSQLParams<P>(sql: string, params: Option<seq<P>>) returns (r: Statement<P>)
    ensures r == Convert(sql, params)
  {
    if params.None? || |params.value| == 0 {
      return Statement(sql, []);
    }
    var paramIndex: nat := 1;
    var converted := "";
    var i := 0;
    while i < |sql|
      invariant 0 <= i <= |sql|
      invariant converted + Rewrite(sql[i..], paramIndex) == Rewrite(sql, 1)
    {
      RewriteStep(sql, i, converted, paramIndex);
      if sql[i] == '?' {
        converted := converted + ("$" + Decimal.NatToString(paramIndex));
        paramIndex := paramIndex + 1;
      } else {
        converted := converted + [sql[i]];
      }
      i := i + 1;
    }
    assert sql[i..] == [];
    r := Statement(converted, params.value);
  }

  /** With a non-empty parameter list, only the statement decides the SQL text, not how many parameters there are. */
  lemma ConvertIgnoresParamCount<P>(sql: string, p: seq<P>, q: seq<P>)
    requires p != [] && q != []
    ensures Convert(sql, Some(p)).sql == Convert(sql, Some(q)).sql
  {
  }

  /** Text without `?` appended to a statement comes out of the translation as it went in. */
  lemma ConvertAppendLiteral<P>(sql: string, clause: string, params: Option<seq<P>>)
    requires '?' !in clause
    ensures Convert(sql + clause, params) == Statement(Convert(sql, params).sql + clause, Convert(sql, params).params)
  {
    if params.Some? && params.value != [] {
      OccurrencesAbsent(clause, '?');
      RewriteAppend(sql, clause, 1);
      RewriteWithoutPlaceholders(clause, 1 + Occurrences(sql, '?'));
    }
  }

  lemma RewriteOnePlaceholder(next: nat)
    ensures Rewrite("?", next) == "$" + Decimal.NatToString(next)
    ensures Occurrences("?", '?') == 1
  {
    assert "?"[0] == '?' && "?"[1..] == [];
  }

  /** Text without `?` followed by one `?`: the text stays and the `?` becomes `$next`. */
  lemma RewriteTextThenPlaceholder(x: string, next: nat)
    requires '?' !in x
    ensures Rewrite(x + "?", next) == x + ("$" + Decimal.NatToString(next))
  {
    OccurrencesAbsent(x, '?');
    RewriteAppend(x, "?", next);
    RewriteWithoutPlaceholders(x, next);
    RewriteOnePlaceholder(next);
  }

  /**
   * A `?` inside a quoted SQL literal is numbered like any other: with
   * parameters, `<a>'?'<b>?` becomes `<a>'$1'<b>$2`.
   */
  lemma {:induction false} QuotedPlaceholderIsNumbered<P>(a: string, b: string, params: seq<P>)
    requires '?' !in a && '?' !in b && params != []
    ensures Convert(a + "'?'" + b + "?", Some(params)).sql == a + "'$1'" + b + "$2"
  {
    var x, y := a + "'", "'" + b;
    var sql := a + "'?'" + b + "?";
    assert '?' !in x && '?' !in y;
    assert Decimal.NatToString(1) == "1" && Decimal.NatToString(2) == "2" by {
      assert Decimal.DigitChar(1) == '1' && Decimal.DigitChar(2) == '2';
    }
    assert Rewrite(x + "?", 1) == x + "$1" by {
      RewriteTextThenPlaceholder(x, 1);
    }
    assert Rewrite(y + "?", 2) == y + "$2" by {
      RewriteTextThenPlaceholder(y, 2);
    }
    assert Occurrences(x + "?", '?') == 1 by {
      OccurrencesAbsent(x, '?');
      RewriteOnePlaceholder(1);
      OccurrencesAppend(x, "?", '?');
    }
    assert Rewrite(sql, 1) == (x + "$1") + (y + "$2") by {
      assert sql == (x + "?") + (y + "?");
      RewriteAppend(x + "?", y + "?", 1);
    }
    assert (x + "$1") + (y + "$2") == a + "'$1'" + b + "$2";
  }

  // ---------------------------------------------------------------------------
  // Query helpers
  // ---------------------------------------------------------------------------

  /** What `pool.query` resolves to: the rows in order and the affected-row count (null for some commands). */
  datatype QueryResult<R> = QueryResult(rows: seq<R>, rowCount: Option<nat>)

  /** A result row: column name to value. */
  type Row<V> = map<string, V>

  /** `query`: all rows of the result, in order; an error is rethrown as it came. */
  function Query<P, R, E>(run: Statement<P> -> Result<QueryResult<R>, E>, sql: string, params: Option<seq<P>>): (r: Result<seq<R>, E>)
    ensures r.Failure? <==> run(Convert(sql, params)).Failure?
    ensures r.Failure? ==> r.error == run(Convert(sql, params)).error
    ensures r.Success? ==> r.value == run(Convert(sql, params)).value.rows
  {
    match run(Convert(sql, params))
    case Failure(e) => Failure(e)
    case Success(result) => Success(result.rows)
  }

  /** `queryOne`: the first row, or null when there is none; an error is rethrown as it came. */
  function QueryOne<P, R, E>(run: Statement<P> -> Result<QueryResult<R>, E>, sql: string, params: Option<seq<P>>): (r: Result<Option<R>, E>)
    ensures r.Failure? <==> run(Convert(sql, params)).Failure?
    ensures r.Failure? ==> r.error == run(Convert(sql, params)).error
    ensures r.Success? ==>
      var rows := run(Convert(sql, params)).value.rows;
      (r.value.None? <==> rows == []) && (r.value.Some? ==> r.value.value == rows[0])
  {
    match run(Convert(sql, params))
    case Failure(e) => Failure(e)
    case Success(result) => Success(if result.rows == [] then None else Some(result.rows[0]))
  }

  /** `queryOne` keeps exactly the head of what `query` returns for the same statement. */
  lemma QueryOneIsHeadOfQuery<P, R, E>(run: Statement<P> -> Result<QueryResult<R>, E>, sql: string, params: Option<seq<P>>)
    ensures match Query(run, sql, params)
      case Failure(e) => QueryOne(run, sql, params) == Failure(e)
      case Success(rows) => QueryOne(run, sql, params) == Success(if rows == [] then None else Some(rows[0]))
  {
  }

  /** The clause `insert` appends to the converted statement. */
  const ReturningId: string := " RETURNING id"

  /** The `id` column of a row, when the row has one. */
  function IdOf<V>(row: Row<V>): Option<V>
  {
    if "id" in row then Some(row["id"]) else None
  }

  /**
   * `insert`: runs the converted statement followed by ` RETURNING id`, and
   * returns the `id` of the first row, or undefined when there is no row or
   * it has no `id`; an error is rethrown as it came.
   */
  function Insert<P, V, E>(run: Statement<P> -> Result<QueryResult<Row<V>>, E>, sql: string, params: Option<seq<P>>): (r: Result<Option<V>, E>)
    ensures var converted := Convert(sql, params);
      var out := run(Statement(converted.sql + ReturningId, converted.params));
      (r.Failure? <==> out.Failure?)
      && (r.Failure? ==> r.error == out.error)
      && (r.Success? ==>
            (r.value.None? <==> out.value.rows == [] || "id" !in out.value.rows[0])
            && (r.value.Some? ==> r.value.value == out.value.rows[0]["id"]))
  {
    var converted := Convert(sql, params);
    match run(Statement(converted.sql + ReturningId, converted.params))
    case Failure(e) => Failure(e)
    case Success(result) => Success(if result.rows == [] then None else IdOf(result.rows[0]))
  }

  /**
   * Appending ` RETURNING id` after the translation is the same as translating
   * the statement with the clause already appended (the clause has no `?`):
   * `insert` is `query` on `sql + " RETURNING id"`, keeping the first row's `id`.
   */
  lemma {:induction false} InsertIsQueryReturningId<P, V, E>(run: Statement<P> -> Result<QueryResult<Row<V>>, E>, sql: string, params: Option<seq<P>>)
    ensures match Query(run, sql + ReturningId, params)
      case Failure(e) => Insert(run, sql, params) == Failure(e)
      case Success(rows) => Insert(run, sql, params) == Success(if rows == [] then None else IdOf(rows[0]))
  {
    if params.Some? && params.value != [] {
      ConvertAppendLiteral(sql, ReturningId, params);
    }
  }

  /** `execute`: the affected-row count, 0 when the count is null; an error is rethrown as it came. */
  function Execute<P, R, E>(run: Statement<P> -> Result<QueryResult<R>, E>, sql: string, params: Option<seq<P>>): (r: Result<nat, E>)
    ensures r.Failure? <==> run(Convert(sql, params)).Failure?
    ensures r.Failure? ==> r.error == run(Convert(sql, params)).error
    ensures r.Success? ==>
      var count := run(Convert(sql, params)).value.rowCount;
      (count.None? ==> r.value == 0) && (count.Some? ==> r.value == count.value)
  {
    match run(Convert(sql, params))
    case Failure(e) => Failure(e)
    case Success(result) => Success(if result.rowCount.Some? then result.rowCount.value else 0)
  }

  // ---------------------------------------------------------------------------
  // Transactions
  // ---------------------------------------------------------------------------

  datatype Command = Begin | Commit | Rollback

  /** What happens to the pool and to the leased client, in order. */
  datatype Event = Acquired | Issued(command: Command) | CallbackRan | Released

  /** How one awaited step settles: it resolves, or it rejects with an error. */
  datatype Step<E> = Resolved | Rejected(error: E)

  /**
   * How each step `transaction` may take would settle: `pool.connect()`, the
   * three statements and the caller's callback.
   */
  datatype Scenario<T, E> = Scenario(connect: Step<E>, begin: Step<E>, callback: Result<T, E>, commit: Step<E>, rollback: Step<E>)

  /** The outcome of the `try` block, once a client is leased: the callback's value, or the first error. */
  function Attempt<T, E>(s: Scenario<T, E>): (r: Result<T, E>)
    ensures r.Success? <==> s.begin.Resolved? && s.callback.Success? && s.commit.Resolved?
    ensures r.Success? ==> r.value == s.callback.value
    ensures s.begin.Rejected? ==> r == Failure(s.begin.error)
    ensures s.begin.Resolved? && s.callback.Failure? ==> r == Failure(s.callback.error)
    ensures s.begin.Resolved? && s.callback.Success? && s.commit.Rejected? ==> r == Failure(s.commit.error)
  {
    if s.begin.Rejected? then Failure(s.begin.error)
    else if s.callback.Failure? then Failure(s.callback.error)
    else if s.commit.Rejected? then Failure(s.commit.error)
    else Success(s.callback.value)
  }

  /** The events of one `transaction` call. */
  function TransactionTrace<T, E>(s: Scenario<T, E>): (t: seq<Event>)
    // no lease: no BEGIN and nothing to release
    ensures s.connect.Rejected? ==> t == []
    // a granted lease comes first, BEGIN follows, and the release is the last event and happens once
    ensures s.connect.Resolved? ==>
      |t| >= 4 && t[0] == Acquired && t[1] == Issued(Begin) && t[|t| - 1] == Released
    ensures forall i :: 0 <= i < |t| - 1 ==> t[i] != Released
    ensures forall i :: 0 < i < |t| ==> t[i] != Acquired
    // COMMIT is issued only once BEGIN and the callback have succeeded
    ensures Issued(Commit) in t ==> s.connect.Resolved? && s.begin.Resolved? && s.callback.Success?
    // when the whole attempt succeeds, that is the whole story
    ensures s.connect.Resolved? && Attempt(s).Success? ==>
      t == [Acquired, Issued(Begin), CallbackRan, Issued(Commit), Released]
    // a failure of BEGIN, the callback or COMMIT is followed by ROLLBACK, then release
    ensures s.connect.Resolved? && Attempt(s).Failure? ==> t[|t| - 2] == Issued(Rollback)
    ensures Issued(Rollback) in t <==> s.connect.Resolved? && Attempt(s).Failure?
  {
    if s.connect.Rejected? then []
    else if s.begin.Rejected? then
      [Acquired, Issued(Begin), Issued(Rollback), Released]
    else if s.callback.Failure? then
      [Acquired, Issued(Begin), CallbackRan, Issued(Rollback), Released]
    else if s.commit.Rejected? then
      [Acquired, Issued(Begin), CallbackRan, Issued(Commit), Issued(Rollback), Released]
    else
      [Acquired, Issued(Begin), CallbackRan, Issued(Commit), Released]
  }

  /**
   * What `transaction` returns or throws: the callback's value after COMMIT;
   * the original error after a successful ROLLBACK; the ROLLBACK's own error
   * when that fails too; the connection error when no client was leased.
   */
  function TransactionOutcome<T, E>(s: Scenario<T, E>): (r: Result<T, E>)
    ensures r.Success? <==> s.connect.Resolved? && Attempt(s).Success?
    ensures r.Success? ==> r.value == s.callback.value
    ensures s.connect.Rejected? ==> r == Failure(s.connect.error)
    ensures s.connect.Resolved? && Attempt(s).Failure? ==>
      r == (if s.rollback.Rejected? then Failure(s.rollback.error) else Attempt(s))
  {
    if s.connect.Rejected? then Failure(s.connect.error)
    else if Attempt(s).Success? then Attempt(s)
    else if s.rollback.Rejected? then Failure(s.rollback.error)
    else Attempt(s)
  }

  /**
   * The pool with the client it leases. The outcome of each awaited call is
   * supplied by the caller; the pool records what was done, in order.
   */
  class Pool {
    var trace: seq<Event>

    constructor ()
      ensures trace == []
    {
      trace := [];
    }

    /** `pool.connect()`: a lease is recorded only when it is granted. */
    method Connect<E>(outcome: Step<E>) returns (s: Step<E>)
      modifies this
      ensures s == outcome
      ensures trace == old(trace) + (if outcome.Resolved? then [Acquired] else [])
    {
      if outcome.Resolved? {
        trace := trace + [Acquired];
      }
      s := outcome;
    }

    /** `client.query(command)` on the leased client: the statement is issued whatever its outcome. */
    method Query<E>(command: Command, outcome: Step<E>) returns (s: Step<E>)
      modifies this
      ensures s == outcome
      ensures trace == old(trace) + [Issued(command)]
    {
      trace := trace + [Issued(command)];
      s := outcome;
    }

    /** `callback(client)`: the caller's unit of work. */
    method RunCallback<T, E>(outcome: Result<T, E>) returns (r: Result<T, E>)
      modifies this
      ensures r == outcome
      ensures trace == old(trace) + [CallbackRan]
    {
      trace := trace + [CallbackRan];
      r := outcome;
    }

    /** `client.release()`. */
    method Release()
      modifies this
      ensures trace == old(trace) + [Released]
    {
      trace := trace + [Released];
    }
  }

  /**
   * `transaction(callback)`: lease a client (outside the `try`), then BEGIN,
   * the callback and COMMIT; on any error ROLLBACK and rethrow; release in
   * `finally`.
   */
  method Transaction<T, E>(pool: Pool, s: Scenario<T, E>) returns (r: Result<T, E>)
    modifies pool
    ensures pool.trace == old(pool.trace) + TransactionTrace(s)
    ensures r == TransactionOutcome(s)
  {
    var connected := pool.Connect(s.connect);
    if connected.Rejected? {
      return Failure(connected.error);
    }
    // try
    var attempt: Result<T, E>;
    var begun := pool.Query(Begin, s.begin);
    if begun.Rejected? {
      attempt := Failure(begun.error);
    } else {
      attempt := pool.RunCallback(s.callback);
      if attempt.Success? {
        var committed := pool.Query(Commit, s.commit);
        if committed.Rejected? {
          attempt := Failure(committed.error);
        }
      }
    }
    r := attempt;
    // catch
    if attempt.Failure? {
      var rolledBack := pool.Query(Rollback, s.rollback);
      if rolledBack.Rejected? {
        r := Failure(rolledBack.error);
      }
    }
    // finally
    pool.Release();
  }
}
