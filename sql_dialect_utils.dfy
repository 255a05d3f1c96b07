/**
  Dialect resolution: `SQLDialectUtils.getSQLDialect` picks the SQL dialect of a
  datasource from the `url` entry of its options.
*/
module SQLDialectUtils {
  import opened Wrappers

  /** The dialect strategies; MySQL is the only one (a stateless singleton). */
  datatype SQLDialect = MySQLDialect

  /** What `getSQLDialect` throws instead of returning a dialect. */
  datatype DialectError =
    | NoSuitableDialect(message: string)  // NosuitableSQLDialectExeption
    | NullPointer                         // "...".concat(null) when there is no url

  const UrlKey := "url"
  const MySqlMarker := "mysql"
  const NoSuitablePrefix := "There is no suitable SQL dialect provide for url: "

  /** `sub` occurs in `s` starting at index `i`. */
  ghost predicate OccursAt(s: string, sub: string, i: int) {
    0 <= i && i + |sub| <= |s| && s[i..i + |sub|] == sub
  }

  /** Java's `String.contains`: a left-to-right scan for `sub`. */
  function Contains(s: string, sub: string): (b: bool)
    ensures b ==> |sub| <= |s|
    ensures |sub| <= |s| && s[..|sub|] == sub ==> b
    decreases |s|
  {
    if |s| < |sub| then false
    else if s[..|sub|] == sub then true
    else Contains(s[1..], sub)
  }

  /** The scan finds `sub` exactly when it occurs somewhere in `s`. */
  lemma {:induction false} ContainsIff(s: string, sub: string)
    ensures Contains(s, sub) <==> exists i :: OccursAt(s, sub, i)
    decreases |s|
  {
    if |s| < |sub| {
      forall i | OccursAt(s, sub, i) ensures false { }
    } else if s[..|sub|] == sub {
      assert OccursAt(s, sub, 0);
    } else {
      ContainsIff(s[1..], sub);
      if exists i :: OccursAt(s[1..], sub, i) {
        var i :| OccursAt(s[1..], sub, i);
        assert s[i + 1..i + 1 + |sub|] == s[1..][i..i + |sub|];
        assert OccursAt(s, sub, i + 1);
      }
      if exists i :: OccursAt(s, sub, i) {
        var i :| OccursAt(s, sub, i);
        assert i != 0;
        assert s[1..][i - 1..i - 1 + |sub|] == s[i..i + |sub|];
        assert OccursAt(s[1..], sub, i - 1);
      }
    }
  }

  /** A string without the first character of `sub` cannot contain `sub`. */
  lemma {:induction false} ContainsNeedsFirstChar(s: string, sub: string)
    requires sub != [] && sub[0] !in s
    ensures !Contains(s, sub)
    decreases |s|
  {
    if |s| >= |sub| {
      assert s[..|sub|][0] == s[0];
      ContainsNeedsFirstChar(s[1..], sub);
    }
  }

  /** `getSQLDialect(options)`: only `options.get("url")` is consulted. */
  function GetSQLDialect(options: map<string, string>): (r: Result<SQLDialect, DialectError>)
    // MySQL is the only dialect, so `r.value == MySQLDialect` is there for the reader
    ensures r.Success? ==> UrlKey in options && r.value == MySQLDialect
    ensures UrlKey !in options ==> r == Failure(NullPointer)
  {
    if UrlKey in options && Contains(options[UrlKey], MySqlMarker) then
      Success(MySQLDialect)
    else if UrlKey !in options then
      Failure(NullPointer)
    else
      Failure(NoSuitableDialect(NoSuitablePrefix + options[UrlKey]))
  }

  /**
    The MySQL dialect is returned exactly when the url is present and holds
    "mysql" somewhere; a present url without it is rejected with the fixed
    prefix followed by the url.
  */
  lemma GetSQLDialectSpec(options: map<string, string>)
    ensures GetSQLDialect(options) == Success(MySQLDialect) <==>
      UrlKey in options && exists i :: OccursAt(options[UrlKey], MySqlMarker, i)
    ensures UrlKey in options && (forall i :: !OccursAt(options[UrlKey], MySqlMarker, i)) ==>
      GetSQLDialect(options) == Failure(NoSuitableDialect(NoSuitablePrefix + options[UrlKey]))
  {
    if UrlKey in options {
      ContainsIff(options[UrlKey], MySqlMarker);
    }
  }

  /** The error message always ends with the rejected url itself. */
  lemma MessageNamesUrl(options: map<string, string>)
    ensures GetSQLDialect(options).Failure? && GetSQLDialect(options).error.NoSuitableDialect? ==>
      UrlKey in options &&
      var m := GetSQLDialect(options).error.message;
      |m| == |NoSuitablePrefix| + |options[UrlKey]| &&
      m[..|NoSuitablePrefix|] == NoSuitablePrefix && m[|NoSuitablePrefix|..] == options[UrlKey]
  {
  }

  /** Two option maps that agree on `url` resolve to the same dialect or the same error. */
  lemma OnlyUrlConsulted(a: map<string, string>, b: map<string, string>)
    requires UrlKey in a <==> UrlKey in b
    requires UrlKey in a ==> a[UrlKey] == b[UrlKey]
    ensures GetSQLDialect(a) == GetSQLDialect(b)
  {
  }

  /** The match is case-sensitive: a url spelling the vendor "MySQL" is rejected. */
  lemma CaseSensitiveMatch()
    ensures GetSQLDialect(map[UrlKey := "jdbc:MySQL://localhost/db"]) ==
      Failure(NoSuitableDialect(NoSuitablePrefix + "jdbc:MySQL://localhost/db"))
  {
    ContainsNeedsFirstChar("jdbc:MySQL://localhost/db", MySqlMarker);
  }
}
