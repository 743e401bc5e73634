/**
 * The database handle's builder and the SQL query builder
 * (`postgres/PostgreSQL.java`). Connecting and querying are left out; what
 * is modelled is the builder's state machine and the text of the query.
 */
module PostgreSql {
  import opened Wrappers

  /** The connection settings of a built handle. */
  datatype PostgreSQL = PostgreSQL(database: string, password: string, table: string, url: string, username: string)

  datatype Fields = Fields(
    database: Option<string>, password: Option<string>, table: Option<string>,
    url: Option<string>, username: Option<string>, built: bool)

  /** `validateState()`, then `new PostgreSQL(this)`. */
  function BuildHandle(s: Fields): Result<PostgreSQL>
  {
    if s.built || s.database.None? || s.password.None? || s.table.None? || s.url.None? || s.username.None?
    then Failure(IllegalState)
    else Success(PostgreSQL(s.database.value, s.password.value, s.table.value, s.url.value, s.username.value))
  }

  /**
   * A build succeeds exactly on a builder not built before with all five
   * settings given; `table()` and `database()` of the handle return what
   * was given.
   */
  lemma BuildSucceedsExactly(s: Fields)
    ensures BuildHandle(s).Success? <==>
      !s.built && s.database.Some? && s.password.Some? && s.table.Some? && s.url.Some? && s.username.Some?
    ensures BuildHandle(s).Success? ==>
      Some(BuildHandle(s).value.table) == s.table && Some(BuildHandle(s).value.database) == s.database
    ensures BuildHandle(s).Failure? ==> BuildHandle(s).error == IllegalState
  {
  }

  /** Once built, the same builder never builds again. */
  lemma SecondBuildFails(s: Fields)
    ensures BuildHandle(s.(built := true)) == Failure(IllegalState)
  {
  }

  /** `PostgreSQL.Builder` */
  class Builder {
    var database: Option<string>
    var password: Option<string>
    var table: Option<string>
    var url: Option<string>
    var username: Option<string>
    var built: bool

    function State(): Fields
      reads this
    {
      Fields(database, password, table, url, username, built)
    }

    constructor ()
      ensures State() == Fields(None, None, None, None, None, false)
    {
      database, password, table, url, username, built := None, None, None, None, None, false;
    }

    method Database(d: string)
      modifies this
      ensures State() == old(State()).(database := Some(d))
    {
      database := Some(d);
    }

    method Password(p: string)
      modifies this
      ensures State() == old(State()).(password := Some(p))
    {
      password := Some(p);
    }

    method Table(t: string)
      modifies this
      ensures State() == old(State()).(table := Some(t))
    {
      table := Some(t);
    }

    method Url(u: string)
      modifies this
      ensures State() == old(State()).(url := Some(u))
    {
      url := Some(u);
    }

    method Username(u: string)
      modifies this
      ensures State() == old(State()).(username := Some(u))
    {
      username := Some(u);
    }

    /** `build()`: on success the builder is marked built. */
    method Build() returns (r: Result<PostgreSQL>)
      modifies this
      ensures r == BuildHandle(old(State()))
      ensures State() == old(State()).(built := old(built) || r.Success?)
    {
      r := BuildHandle(State());
      if r.Success? {
        built := true;
      }
    }
  }

  // ---------------------------------------------------------------------
  // Queries

  /** The SQL keywords of `Util.Sql`. */
  const SELECT := "SELECT"
  const SELECT_DISTINCT := SELECT + " DISTINCT"
  const FROM := "FROM"
  const WHERE := "WHERE"
  const ORDER_BY := "ORDER BY"
  const ASCEND := "ASC"
  const DESCEND := "DESC"

  /** One clause method of the query builder and its argument. */
  datatype Clause =
    | Select(select: string)
    | SelectDistinct(select: string)
    | From(from: string)
    | Where(where: string)
    | OrderByAscend(orderBy: string)
    | OrderByDescend(orderBy: string)
  {
    /** The clause's line without its newline. */
    function Text(): string
    {
      match this
      case Select(s) => SELECT + " " + s
      case SelectDistinct(s) => SELECT_DISTINCT + " " + s
      case From(s) => FROM + " " + s
      case Where(s) => WHERE + " " + s
      case OrderByAscend(s) => ORDER_BY + " " + s + " " + ASCEND
      case OrderByDescend(s) => ORDER_BY + " " + s + " " + DESCEND
    }
  }

  /** The clause lines, in call order. */
  function Texts(cs: seq<Clause>): (ts: seq<string>)
    ensures |ts| == |cs|
    ensures forall i :: 0 <= i < |cs| ==> ts[i] == cs[i].Text()
  {
    seq(|cs|, i requires 0 <= i < |cs| => cs[i].Text())
  }

  /** The buffer after appending the lines `ts`, each followed by a newline. */
  function Lines(ts: seq<string>): string
  {
    if ts == [] then "" else Lines(ts[..|ts| - 1]) + ts[|ts| - 1] + "\n"
  }

  /** The lines joined by newlines, with no newline after the last. */
  function Joined(ts: seq<string>): string
  {
    if ts == [] then ""
    else if |ts| == 1 then ts[0]
    else Joined(ts[..|ts| - 1]) + "\n" + ts[|ts| - 1]
  }

  /** `toSql()` on a buffer: drop its last character, add ";". An empty buffer throws. */
  function ToSql(query: string): Result<string>
  {
    if |query| == 0 then Failure(IndexOutOfBounds) else Success(query[..|query| - 1] + ";")
  }

  lemma {:induction false} LinesIsJoined(ts: seq<string>)
    requires ts != []
    ensures Lines(ts) == Joined(ts) + "\n"
  {
    var n := |ts|;
    if n > 1 {
      var init := ts[..n - 1];
      LinesIsJoined(init);
      LineAfterJoined(Lines(init), Joined(init), ts[n - 1]);
    } else {
      assert ts[..0] == [];
    }
  }

  lemma LineAfterJoined(lines: string, joined: string, t: string)
    requires lines == joined + "\n"
    ensures lines + t + "\n" == joined + "\n" + t + "\n"
  {
  }

  /**
   * After at least one clause, `toSql()` is the clause lines joined by
   * newlines followed by ";": the character it drops is the last newline.
   */
  lemma ToSqlOfClauses(cs: seq<Clause>)
    requires cs != []
    ensures ToSql(Lines(Texts(cs))) == Success(Joined(Texts(cs)) + ";")
  {
    var ts := Texts(cs);
    LinesIsJoined(ts);
    var q := Lines(ts);
    assert q[..|q| - 1] == Joined(ts);
  }

  /** `PostgreSQL.QueryBuilder` */
  class QueryBuilder {
    var query: string

    constructor ()
      ensures query == ""
    {
      query := "";
    }

    /** Each clause method appends exactly its text and a newline. */
    method Append(c: Clause)
      modifies this
      ensures query == old(query) + c.Text() + "\n"
    {
      query := query + c.Text() + "\n";
    }

    /**
     * `toSql()`: deletes the buffer's last character in place, so a second
     * call drops one more.
     */
    method ToSqlInPlace() returns (r: Result<string>)
      modifies this
      ensures r == ToSql(old(query))
      ensures |old(query)| > 0 ==> query == old(query)[..|old(query)| - 1]
      ensures |old(query)| == 0 ==> query == old(query)
    {
      if |query| == 0 {
        return Failure(IndexOutOfBounds);
      }
      query := query[..|query| - 1];
      r := Success(query + ";");
    }
  }

  /** A builder given clauses `cs` holds their lines; called twice, `toSql()` also loses the last argument character. */
  lemma SecondToSqlDropsMore(cs: seq<Clause>)
    requires cs != []
    ensures var q := Lines(Texts(cs)); var j := Joined(Texts(cs));
      |q| >= 2 && ToSql(q[..|q| - 1]) == Success(j[..|j| - 1] + ";")
  {
    var ts := Texts(cs);
    LinesIsJoined(ts);
    var q := Lines(ts);
    TextNotEmpty(cs[|cs| - 1]);
    JoinedEndsWithLast(ts);
    assert q[..|q| - 1] == Joined(ts);
  }

  lemma TextNotEmpty(c: Clause)
    ensures |c.Text()| >= 1
  {
  }

  lemma JoinedEndsWithLast(ts: seq<string>)
    requires ts != []
    ensures |Joined(ts)| >= |ts[|ts| - 1]|
  {
  }
}
