/**
  * The values that flow between the collector, the report builder and the
  * notifier: one related-queries table row, the result the trend provider
  * returns for a keyword, one row of the daily report, and the
  * insertion-ordered dictionary that Python's `dict` gives the results.
  */
module Records {
  import opened Wrappers

  /** One row of a related-queries table: the `query` and `value` columns. */
  datatype Row = Row(query: string, value: int)

  /** What one key of the provider's result holds: the key is missing, it
      maps to `None`, it maps to a table, or it maps to some other value. */
  datatype Field = Absent | Null | Frame(rows: seq<Row>) | Other

  /** The provider's result for one keyword: a dictionary with the keys
      `top` and `rising`. */
  datatype Related = Related(top: Field, rising: Field)

  /** Python truthiness of a fetched result: `None` and the empty dictionary
      are falsy. */
  predicate Truthy(d: Option<Related>) {
    d.Some? && !(d.value.top.Absent? && d.value.rising.Absent?)
  }

  /** The rows a field contributes when it is a table, none otherwise. */
  function FrameRows(f: Field): seq<Row> {
    if f.Frame? then f.rows else []
  }

  /** The `type` column of the daily report. */
  datatype Kind = Rising | Top

  /** One row of the daily report: columns `keyword`, `related_keywords`,
      `value` and `type`. */
  datatype ReportRow = ReportRow(keyword: string, relatedKeyword: string, value: int, kind: Kind)

  /** Regrouping appends. */
  lemma AppendAssoc3<T>(a: seq<T>, b: seq<T>, c: seq<T>)
    ensures (a + b) + c == a + (b + c)
  {
  }

  /** Regrouping a chain of appends. */
  lemma AppendAssoc<T>(a: seq<T>, b: seq<T>, c: seq<T>, d: seq<T>)
    ensures (a + (b + c)) + d == a + (b + (c + d))
  {
  }

  /** The report rows of keyword `k` and type `kind`, in report order
      (`df[(df['keyword'] == k) & (df['type'] == kind)]`). */
  function Select(rows: seq<ReportRow>, k: string, kind: Kind): (r: seq<ReportRow>)
    ensures |r| <= |rows|
  {
    if rows == [] then []
    else
      var last := rows[|rows| - 1];
      Select(rows[..|rows| - 1], k, kind) + (if last.keyword == k && last.kind == kind then [last] else [])
  }

  lemma {:induction false} SelectAppend(a: seq<ReportRow>, b: seq<ReportRow>, k: string, kind: Kind)
    ensures Select(a + b, k, kind) == Select(a, k, kind) + Select(b, k, kind)
  {
    if b != [] {
      SelectAppend(a, b[..|b| - 1], k, kind);
      assert (a + b)[..|a + b| - 1] == a + b[..|b| - 1];
    } else {
      assert a + b == a;
    }
  }

  /** A wall-clock reading, as `strftime` and `datetime.now()` see it. */
  datatype DateTime = DateTime(year: nat, month: nat, day: nat, hour: nat, minute: nat, second: nat)

  /** A rising query above the alert threshold: `(keyword, query, value)`. */
  datatype Alert = Alert(keyword: string, query: string, value: int)

  // ---------------------------------------------------------------------
  // Insertion-ordered dictionaries keyed by keyword
  // ---------------------------------------------------------------------

  predicate Distinct(ks: seq<string>) {
    forall i, j :: 0 <= i < j < |ks| ==> ks[i] != ks[j]
  }

  /** The keywords of `ks` in order of first appearance: the iteration
      order of a dictionary filled by assigning each of them in turn, and what
      `unique()` returns for a column. */
  function FirstAppearances(ks: seq<string>): (r: seq<string>)
    ensures Distinct(r)
    ensures forall k :: k in r <==> k in ks
  {
    if ks == [] then []
    else
      var init := FirstAppearances(ks[..|ks| - 1]);
      assert ks == ks[..|ks| - 1] + [ks[|ks| - 1]];
      if ks[|ks| - 1] in init then init else init + [ks[|ks| - 1]]
  }

  /** A Python `dict` with string keys: its keys in iteration (insertion)
      order and the value stored under each. */
  datatype Dict<V> = Dict(keys: seq<string>, values: map<string, V>) {

    /** Every key appears once in the order, and the order lists exactly
        the stored keys. */
    ghost predicate Valid() {
      Distinct(keys) && forall k :: k in values <==> k in keys
    }

    /** `len(d)`. */
    function Size(): nat {
      |keys|
    }

    /** `d.get(k)`. */
    function Get(k: string): (r: Option<V>)
      ensures r.Some? <==> k in values
    {
      if k in values then Some(values[k]) else None
    }
  }

  /** The empty dictionary `{}`. */
  function EmptyDict<V>(): (d: Dict<V>)
    ensures d.Valid() && d.Size() == 0
  {
    Dict([], map[])
  }

  /** `d[k] = v`: an existing key keeps its place and takes the new value;
      a new key goes at the end of the iteration order. */
  function Assign<V>(d: Dict<V>, k: string, v: V): (r: Dict<V>)
    requires d.Valid()
    ensures r.Valid()
    ensures k in d.keys ==> r.keys == d.keys
    ensures k !in d.keys ==> r.keys == d.keys + [k]
    ensures r.Get(k) == Some(v)
    ensures forall k' :: k' != k ==> r.Get(k') == d.Get(k')
  {
    if k in d.keys then Dict(d.keys, d.values[k := v])
    else Dict(d.keys + [k], d.values[k := v])
  }
}
