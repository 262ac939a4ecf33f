/**
 * Query translation for List: which query-string keys become the filter,
 * how `_limit`, `_offset` and `_sort` are read, and which slice of the
 * store's ordered matches is returned.
 */
module Query {
  import opened Wrappers
  import Strconv

  /** The request's query string: each key with all of its values, in order. */
  type QueryString = map<string, seq<string>>

  /** The filter document: each field with the list of values it is matched against. */
  type Filter = map<string, seq<string>>

  const LimitKey: string := "_limit"
  const OffsetKey: string := "_offset"
  const SortKey: string := "_sort"

  /** The query keys that steer paging and sorting instead of filtering. */
  const Reserved: seq<string> := [LimitKey, OffsetKey, SortKey]

  /** `inArray`: whether a key occurs in a list. */
  predicate InArray(key: string, list: seq<string>)
  {
    key in list
  }

  /**
   * The filter built from a query string: every key other than the reserved
   * ones, each with its full, unchanged list of values.
   */
  function FilterOf(query: QueryString): (f: Filter)
    ensures f.Keys == query.Keys - {LimitKey, OffsetKey, SortKey}
    ensures forall k :: k in f ==> f[k] == query[k]
  {
    map k | k in query && !InArray(k, Reserved) :: query[k]
  }

  /** `DefaultQuery`: the first value of a key, or the default when the key has none. */
  function DefaultQuery(query: QueryString, key: string, default: string): (v: string)
    ensures key in query && |query[key]| > 0 ==> v == query[key][0]
    ensures key !in query || query[key] == [] ==> v == default
  {
    if key in query && |query[key]| > 0 then query[key][0] else default
  }

  /**
   * What List hands to the store: the filter, a skip when the offset is
   * positive, a cap when the limit is positive, and a sort directive when
   * `_sort` is non-empty.
   */
  datatype QuerySpec = QuerySpec(filter: Filter, skip: Option<nat>, limit: Option<nat>, sort: Option<string>)

  /** Which paging parameter failed to parse, with its text. */
  datatype BadParam = BadLimit(text: string) | BadOffset(text: string)

  /** A positive count as a window bound; zero and negative counts mean no bound. */
  function Positive(n: int): (b: Option<nat>)
    ensures b.Some? <==> n > 0
    ensures b.Some? ==> b.value == n
  {
    if n > 0 then Some(n) else None
  }

  /** The query List runs for a query string, or the parameter that stops it. */
  function Translate(query: QueryString): (r: Result<QuerySpec, BadParam>)
    ensures r.Ok? <==> Strconv.Atoi(DefaultQuery(query, LimitKey, "0")).Some?
                       && Strconv.Atoi(DefaultQuery(query, OffsetKey, "0")).Some?
    ensures r.Ok? ==> r.value.filter == FilterOf(query)
  {
    var limitText := DefaultQuery(query, LimitKey, "0");
    var offsetText := DefaultQuery(query, OffsetKey, "0");
    match Strconv.Atoi(limitText)
    case None => Err(BadLimit(limitText))
    case Some(limit) =>
      match Strconv.Atoi(offsetText)
      case None => Err(BadOffset(offsetText))
      case Some(offset) =>
        var sort := DefaultQuery(query, SortKey, "");
        Ok(QuerySpec(FilterOf(query), Positive(offset), Positive(limit), if sort != "" then Some(sort) else None))
  }

  /** Without `_limit` and `_offset`, nothing is skipped and nothing is capped. */
  lemma MissingPagingIsUnbounded(query: QueryString)
    requires LimitKey !in query && OffsetKey !in query
    ensures Translate(query).Ok?
    ensures Translate(query).value.skip == None && Translate(query).value.limit == None
  {
    assert Strconv.DigitsValue("0") == 0 by {
      assert "0"[..0] == "";
    }
  }

  /**
   * A query whose paging values parse is translated: the filter is the
   * non-reserved keys, skip is applied iff the offset is positive, a cap iff
   * the limit is positive, and a sort iff `_sort` is non-empty.
   */
  lemma TranslateOk(query: QueryString, limit: int, offset: int)
    requires Strconv.Atoi(DefaultQuery(query, LimitKey, "0")) == Some(limit)
    requires Strconv.Atoi(DefaultQuery(query, OffsetKey, "0")) == Some(offset)
    ensures Translate(query).Ok?
    ensures Translate(query).value.filter == FilterOf(query)
    ensures Translate(query).value.filter.Keys == query.Keys - {LimitKey, OffsetKey, SortKey}
    ensures (Translate(query).value.skip.Some? <==> offset > 0) && (offset > 0 ==> Translate(query).value.skip == Some(offset))
    ensures (Translate(query).value.limit.Some? <==> limit > 0) && (limit > 0 ==> Translate(query).value.limit == Some(limit))
    ensures Translate(query).value.sort.Some? <==> SortKey in query && query[SortKey] != [] && query[SortKey][0] != ""
    ensures Translate(query).value.sort.Some? ==> Translate(query).value.sort.value == query[SortKey][0]
  {
  }

  /** A `_limit` or `_offset` that is not an integer stops the query. */
  lemma TranslateErr(query: QueryString)
    requires Strconv.Atoi(DefaultQuery(query, LimitKey, "0")).None?
          || Strconv.Atoi(DefaultQuery(query, OffsetKey, "0")).None?
    ensures Translate(query).Err?
    ensures Strconv.Atoi(DefaultQuery(query, LimitKey, "0")).None?
            ==> Translate(query) == Err(BadLimit(DefaultQuery(query, LimitKey, "0")))
    ensures Strconv.Atoi(DefaultQuery(query, LimitKey, "0")).Some?
            ==> Translate(query) == Err(BadOffset(DefaultQuery(query, OffsetKey, "0")))
  {
  }

  /** The position of the first `c` in `s`, or -1: Go's `strings.Index` for one character. */
  function Index(s: string, c: char): (i: int)
    ensures -1 <= i < |s|
    ensures i >= 0 ==> s[i] == c && c !in s[..i]
    ensures i == -1 ==> c !in s
  {
    if s == [] then -1
    else if s[0] == c then 0
    else var j := Index(s[1..], c); if j == -1 then -1 else j + 1
  }

  /**
   * The field name the driver's sort is left with for one sort field: an
   * optional `$kind:` prefix is removed when something follows the colon,
   * then one leading `+` (ascending) or `-` (descending).
   */
  function SortField(field: string): string
  {
    if field == "" then ""
    else
      var c := Index(field, ':');
      var f := if field[0] == '$' && 1 < c < |field| - 1 then field[c + 1..] else field;
      if f[0] == '+' || f[0] == '-' then f[1..] else f
  }

  /** The driver's sort panics with "Sort: empty field name" when no field name is left. */
  predicate SortPanics(sort: string)
  {
    SortField(sort) == ""
  }

  /** A bare direction sign, alone or after a non-empty `$kind:`, names no field; a signed field does. */
  lemma SortPanicsOnBareSign(name: string, kind: string)
    requires name != "" && name[0] != '+' && name[0] != '-' && name[0] != '$' && ':' !in kind
    ensures SortPanics("+") && SortPanics("-")
    ensures SortPanics("$" + kind + ":-") <==> kind != ""
    ensures !SortPanics(name) && !SortPanics("-" + name) && !SortPanics("+" + name)
  {
    KindThenSign(kind);
    SignedName(name);
  }

  lemma KindThenSign(kind: string)
    requires ':' !in kind
    ensures SortPanics("$" + kind + ":-") <==> kind != ""
  {
    var f := "$" + kind + ":-";
    if kind != "" {
      assert Index(f, ':') == |kind| + 1 by {
        assert f[|kind| + 1] == ':';
        assert f[..|kind| + 1] == "$" + kind;
      }
      assert f[|kind| + 2..] == "-";
    } else {
      assert Index(f, ':') == 1;
    }
  }

  lemma SignedName(name: string)
    requires name != "" && name[0] != '+' && name[0] != '-' && name[0] != '$'
    ensures !SortPanics(name) && !SortPanics("-" + name) && !SortPanics("+" + name)
  {
    assert ("-" + name)[1..] == name;
    assert ("+" + name)[1..] == name;
  }

  /** The first `n` elements, or all of them when there are fewer. */
  function Take<T>(n: nat, s: seq<T>): seq<T>
  {
    if n == 0 || s == [] then [] else [s[0]] + Take(n - 1, s[1..])
  }

  /** All but the first `n` elements, or none when there are fewer. */
  function Drop<T>(n: nat, s: seq<T>): seq<T>
  {
    if n == 0 || s == [] then s else Drop(n - 1, s[1..])
  }

  function Min(a: nat, b: nat): nat { if a < b then a else b }

  /**
   * The rows List returns from the store's ordered matches: the skip, then
   * the cap, each only when present.
   */
  function Page<T>(rows: seq<T>, skip: Option<nat>, limit: Option<nat>): (r: seq<T>)
    ensures var s := if skip.Some? then Min(skip.value, |rows|) else 0;
            && |r| == (if limit.Some? then Min(limit.value, |rows| - s) else |rows| - s)
            && forall i :: 0 <= i < |r| ==> r[i] == rows[s + i]
  {
    var afterSkip := if skip.Some? then rows[Min(skip.value, |rows|)..] else rows;
    if limit.Some? then afterSkip[..Min(limit.value, |afterSkip|)] else afterSkip
  }

  lemma {:induction false} DropIsSuffix<T>(n: nat, s: seq<T>)
    ensures Drop(n, s) == s[Min(n, |s|)..]
  {
    if n != 0 && s != [] {
      DropIsSuffix(n - 1, s[1..]);
    }
  }

  lemma {:induction false} TakeIsPrefix<T>(n: nat, s: seq<T>)
    ensures Take(n, s) == s[..Min(n, |s|)]
  {
    if n != 0 && s != [] {
      TakeIsPrefix(n - 1, s[1..]);
      assert s[..Min(n, |s|)] == [s[0]] + s[1..][..Min(n - 1, |s| - 1)];
    }
  }

  /** The page is take(limit, drop(offset, rows)), a missing bound counting as none. */
  lemma PageIsTakeDrop<T>(rows: seq<T>, skip: Option<nat>, limit: Option<nat>)
    ensures limit.Some? ==> Page(rows, skip, limit) == Take(limit.value, Drop(if skip.Some? then skip.value else 0, rows))
    ensures limit.None? ==> Page(rows, skip, limit) == Drop(if skip.Some? then skip.value else 0, rows)
  {
    var n := if skip.Some? then skip.value else 0;
    DropIsSuffix(n, rows);
    if limit.Some? {
      TakeIsPrefix(limit.value, Drop(n, rows));
    }
  }
}
