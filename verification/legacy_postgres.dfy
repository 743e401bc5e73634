/**
 * The legacy database handle's builder (`Postgres.java`): five text
 * settings, each required to be non-null and non-empty. Connecting,
 * querying and reading a properties file are left out.
 */
module LegacyPostgres {
  import opened Wrappers

  datatype Postgres = Postgres(database: string, host: string, password: string, table: string, username: string)

  datatype Fields = Fields(
    database: Option<string>, host: Option<string>, password: Option<string>,
    table: Option<string>, username: Option<string>)

  /** Guava's `Strings.isNullOrEmpty`. */
  predicate NullOrEmpty(s: Option<string>)
  {
    s.None? || s.value == ""
  }

  /** `build()`: `validate()`, then `new Postgres(this)`. */
  function BuildHandle(s: Fields): Result<Postgres>
  {
    if NullOrEmpty(s.database) || NullOrEmpty(s.host) || NullOrEmpty(s.password)
      || NullOrEmpty(s.table) || NullOrEmpty(s.username)
    then Failure(IllegalState)
    else Success(Postgres(s.database.value, s.host.value, s.password.value, s.table.value, s.username.value))
  }

  /**
   * A build succeeds exactly when all five settings are given and none is
   * empty, and then the handle holds them unchanged.
   */
  lemma BuildSucceedsExactly(s: Fields)
    ensures BuildHandle(s).Success? <==>
      (forall o | o in [s.database, s.host, s.password, s.table, s.username] :: o.Some? && o.value != "")
    ensures BuildHandle(s).Success? ==>
      var p := BuildHandle(s).value;
      s == Fields(Some(p.database), Some(p.host), Some(p.password), Some(p.table), Some(p.username))
    ensures BuildHandle(s).Failure? ==> BuildHandle(s).error == IllegalState
  {
    var os := [s.database, s.host, s.password, s.table, s.username];
    if BuildHandle(s).Success? {
      assert forall i | 0 <= i < 5 :: !NullOrEmpty(os[i]);
      forall o | o in os
        ensures o.Some? && o.value != ""
      {
        var i :| 0 <= i < 5 && os[i] == o;
      }
    } else {
      var i :| 0 <= i < 5 && NullOrEmpty(os[i]) by {
        if NullOrEmpty(s.database) { assert NullOrEmpty(os[0]); }
        else if NullOrEmpty(s.host) { assert NullOrEmpty(os[1]); }
        else if NullOrEmpty(s.password) { assert NullOrEmpty(os[2]); }
        else if NullOrEmpty(s.table) { assert NullOrEmpty(os[3]); }
        else { assert NullOrEmpty(os[4]); }
      }
      assert os[i] in os;
    }
  }

  /** `Postgres.Builder` */
  class Builder {
    var database: Option<string>
    var host: Option<string>
    var password: Option<string>
    var table: Option<string>
    var username: Option<string>

    function State(): Fields
      reads this
    {
      Fields(database, host, password, table, username)
    }

    constructor ()
      ensures State() == Fields(None, None, None, None, None)
    {
      database, host, password, table, username := None, None, None, None, None;
    }

    method Database(d: string)
      modifies this
      ensures State() == old(State()).(database := Some(d))
    {
      database := Some(d);
    }

    method Host(h: string)
      modifies this
      ensures State() == old(State()).(host := Some(h))
    {
      host := Some(h);
    }

    method Password(p: string)
      modifies this
      ensures State() == old(State()).(password := Some(p))
    {
      password := Some(p);
    }

    method Table(t: string)
      modifies this
      ensures State() == old(State()).(table := Some(t))
    {
      table := Some(t);
    }

    method Username(u: string)
      modifies this
      ensures State() == old(State()).(username := Some(u))
    {
      username := Some(u);
    }

    /**
     * `build()` changes nothing (there is no built flag), so it may be
     * repeated with the same outcome.
     */
    method Build() returns (r: Result<Postgres>)
      ensures r == BuildHandle(State())
      ensures r.Success? ==> r.value.table != "" && Some(r.value.table) == table
    {
      r := BuildHandle(State());
    }
  }
}
