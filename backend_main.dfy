/**
 * The request-handling helpers of the FastAPI back end: the CSV rendering of
 * stored posts, the check of required environment variables, the re-keying of
 * freshly fetched documents before they are stored, the store-then-Instagram
 * fallback of the data endpoint and the prompt sent to Gemini.
 */
module BackendMain {
  import opened Wrappers
  import opened Values
  import opened Text

  /** Posts requested from the store when building insights. */
  const DataCount := 1000
  /** Posts fetched from Instagram when the store has none. */
  const InstaloaderFetchCount := 100
  /** Worker threads of that fetch. */
  const MaxWorkers := 10

  /** An `HTTPException`: a status code and a detail message. */
  datatype HttpError = HttpError(status: int, detail: string)

  /** What `format_data_as_csv` raises whenever an item cannot be rendered. */
  const FormatFailed := HttpError(500, "Failed to format data")

  // ---------------------------------------------------------------------------
  // str() of a JSON value
  // ---------------------------------------------------------------------------

  function Digit(d: nat): char
    requires d < 10
  {
    "0123456789"[d]
  }

  predicate IsDigits(r: string) { forall i :: 0 <= i < |r| ==> '0' <= r[i] <= '9' }

  /** The number a string of decimal digits denotes, most significant digit first. */
  function DigitsValue(r: string): nat
    requires IsDigits(r)
  {
    if r == [] then 0 else DigitsValue(r[..|r| - 1]) * 10 + (r[|r| - 1] as int - '0' as int)
  }

  /** Decimal digits of a natural number, most significant first, without leading zeros. */
  function Decimal(n: nat): (r: string)
    ensures |r| >= 1 && IsDigits(r)
    ensures DigitsValue(r) == n
    ensures r[0] == '0' <==> n == 0
    ensures n == 0 ==> r == "0"
    decreases n
  {
    if n < 10 then [Digit(n)] else
      var r := Decimal(n / 10) + [Digit(n % 10)];
      assert r[..|r| - 1] == Decimal(n / 10);
      r
  }

  /** `str(n)` for a Python integer: a minus sign exactly for a negative number, then the
      digits of its magnitude. */
  function IntStr(n: int): (r: string)
    ensures |r| >= 1 && (r[0] == '-' <==> n < 0)
    ensures n < 0 ==> IsDigits(r[1..]) && DigitsValue(r[1..]) == -n
    ensures n >= 0 ==> IsDigits(r) && DigitsValue(r) == n
  {
    if n < 0 then "-" + Decimal(-n) else Decimal(n)
  }

  /** Different integers print differently, so `str(n)` can be read back. */
  lemma {:induction false} IntStrInjective(m: int, n: int)
    requires IntStr(m) == IntStr(n)
    ensures m == n
  {
  }

  /**
   * `str(v)`. Strings print as themselves, integers in decimal, `None`,
   * `True` and `False` by name and empty containers as `[]` and `{}`; the
   * text of any other list or dict is Python's `repr`, given as `repr`.
   */
  function PyStr(j: Json, repr: Json -> string): (r: string)
    ensures j.JStr? ==> r == j.s
    ensures j.JNum? ==> r == IntStr(j.n)
    ensures j.JNull? ==> r == "None"
    ensures j.JBool? ==> r == (if j.b then "True" else "False")
    ensures j == JArr([]) ==> r == "[]"
    ensures j == JObj(map[]) ==> r == "{}"
    ensures j.JArr? && j.items != [] ==> r == repr(j)
    ensures j.JObj? && j.fields != map[] ==> r == repr(j)
  {
    match j
    case JStr(s) => s
    case JNum(n) => IntStr(n)
    case JNull => "None"
    case JBool(b) => if b then "True" else "False"
    case JArr(items) => if items == [] then "[]" else repr(j)
    case JObj(fields) => if fields == map[] then "{}" else repr(j)
  }

  /** `d.get(key, default)`. */
  function Get(d: map<string, Json>, key: string, default: Json): (r: Json)
    ensures key !in d ==> r == default
    ensures key in d ==> r == d[key]
  {
    if key in d then d[key] else default
  }

  // ---------------------------------------------------------------------------
  // format_data_as_csv
  // ---------------------------------------------------------------------------

  /** The metadata keys of a CSV row, in column order. */
  const FieldKeys: seq<string> :=
    ["post_id", "likes", "comments", "views", "timestamp", "hashtags", "caption", "type"]

  /** Default of each column when its key is absent: `[]` for hashtags, `""` otherwise. */
  function FieldDefault(k: nat): Json {
    if k == 5 then JArr([]) else JStr("")
  }

  /** The `metadata` dict of an item, `{}` when the item has none. */
  function MetadataOf(item: Json): Json
    requires item.JObj?
  {
    Get(item.fields, "metadata", JObj(map[]))
  }

  /**
   * An item `format_data_as_csv` can render: a dict whose metadata, if
   * present, is a dict whose caption, if present, is a string. Anything else
   * fails on `.get` or `.strip`.
   */
  predicate Formattable(item: Json) {
    && item.JObj?
    && MetadataOf(item).JObj?
    && Get(MetadataOf(item).fields, "caption", JStr("")).JStr?
  }

  /** The caption column: stripped, with every newline turned into a space. */
  function CaptionColumn(caption: string): (r: string)
    ensures '\n' !in r
    ensures r != [] ==> !IsPySpace(r[0]) && !IsPySpace(r[|r| - 1])
  {
    CaptionEnds(caption);
    ReplaceChar(PyStrip(caption), '\n', ' ')
  }

  lemma {:induction false} CaptionEnds(caption: string)
    ensures var r := ReplaceChar(PyStrip(caption), '\n', ' ');
      && '\n' !in r
      && (r != [] ==> !IsPySpace(r[0]) && !IsPySpace(r[|r| - 1]))
  {
    var s := PyStrip(caption);
    ReplaceCharRemoves(s, '\n', ' ');
    if s != [] {
      assert IsPySpace('\n');
      var first, last := s[0], s[|s| - 1];
      assert !IsPySpace(first) && !IsPySpace(last);
      ReplaceCharEnds(s, '\n', ' ');
    }
  }

  /** After replacing `a` with another character, no `a` is left. */
  lemma {:induction false} ReplaceCharRemoves(s: string, a: char, b: char)
    requires a != b
    ensures a !in ReplaceChar(s, a, b)
  {
    var r := ReplaceChar(s, a, b);
    forall i | 0 <= i < |r|
      ensures r[i] != a
    {
    }
  }

  /** Ends that are not `a` are left in place. */
  lemma {:induction false} ReplaceCharEnds(s: string, a: char, b: char)
    requires s != [] && s[0] != a && s[|s| - 1] != a
    ensures var r := ReplaceChar(s, a, b); r[0] == s[0] && r[|r| - 1] == s[|s| - 1]
  {
  }

  /** The eight columns of an item's row, or the error the rendering raises. */
  function ItemFields(item: Json, repr: Json -> string): (r: Result<seq<string>, HttpError>)
    ensures r.Ok? <==> Formattable(item)
    ensures r.Err? ==> r.error == FormatFailed
    ensures r.Ok? ==> |r.value| == |FieldKeys|
  {
    if !Formattable(item) then Err(FormatFailed)
    else
      var md := MetadataOf(item).fields;
      var caption := Get(md, "caption", JStr("")).s;
      Ok(seq(8, k requires 0 <= k < 8 =>
        if k == 6 then CaptionColumn(caption) else PyStr(Get(md, FieldKeys[k], FieldDefault(k)), repr)))
  }

  /** The row of one item: its columns joined by ",". */
  function FormatRow(item: Json, repr: Json -> string): (r: Result<string, HttpError>)
    ensures r.Ok? <==> Formattable(item)
    ensures r.Err? ==> r.error == FormatFailed
  {
    match ItemFields(item, repr)
    case Ok(fields) => Ok(Join(",", fields))
    case Err(e) => Err(e)
  }

  /**
   * `f` applied to every element and its index, in order, collected while
   * each application succeeds; the first failure is the result.
   */
  function Traverse<T, U, E>(s: seq<T>, f: (nat, T) -> Result<U, E>): (r: Result<seq<U>, E>)
    ensures r.Ok? <==> forall i :: 0 <= i < |s| ==> f(i, s[i]).Ok?
    ensures r.Ok? ==> |r.value| == |s| && forall i :: 0 <= i < |s| ==> f(i, s[i]) == Ok(r.value[i])
    ensures r.Err? ==> exists i :: 0 <= i < |s| && f(i, s[i]) == Err(r.error)
  {
    if s == [] then Ok([])
    else
      var n := |s| - 1;
      assert forall i :: 0 <= i < n ==> s[..n][i] == s[i];
      match Traverse(s[..n], f)
      case Err(e) => Err(e)
      case Ok(done) =>
        match f(n, s[n])
        case Err(e) => Err(e)
        case Ok(u) => Ok(done + [u])
  }

  /** Elements after a failure are never looked at. */
  lemma {:induction false} TraverseStops<T, U, E>(s: seq<T>, f: (nat, T) -> Result<U, E>, m: nat)
    requires m <= |s|
    requires Traverse(s[..m], f).Err?
    ensures Traverse(s, f) == Traverse(s[..m], f)
    decreases |s|
  {
    if m < |s| {
      var n := |s| - 1;
      assert s[..n][..m] == s[..m];
      TraverseStops(s[..n], f, m);
      TraverseLastErr(s, f);
    } else {
      assert s[..m] == s;
    }
  }

  /** One unfolding of `Traverse` when everything before the last element already failed. */
  lemma {:induction false} TraverseLastErr<T, U, E>(s: seq<T>, f: (nat, T) -> Result<U, E>)
    requires s != [] && Traverse(s[..|s| - 1], f).Err?
    ensures Traverse(s, f) == Traverse(s[..|s| - 1], f)
  {
  }

  /** The failure reported is that of the first element that fails. */
  lemma {:induction false} TraverseFirstFailure<T, U, E>(s: seq<T>, f: (nat, T) -> Result<U, E>, i: nat)
    requires i < |s| && f(i, s[i]).Err?
    requires forall j :: 0 <= j < i ==> f(j, s[j]).Ok?
    ensures Traverse(s, f) == Err(f(i, s[i]).error)
  {
    var pre := s[..i + 1];
    assert pre[..i] == s[..i];
    assert forall j :: 0 <= j < i ==> s[..i][j] == s[j];
    assert Traverse(s[..i], f).Ok?;
    assert pre[i] == s[i];
    TraverseStops(s, f, i + 1);
  }

  /** The row function `format_data_as_csv` applies to each item. */
  function RowOf(repr: Json -> string): (nat, Json) -> Result<string, HttpError> {
    (i: nat, item: Json) => FormatRow(item, repr)
  }

  /** The rows of all items, in order; the whole rendering fails if any item does. */
  function Rows(data: seq<Json>, repr: Json -> string): (r: Result<seq<string>, HttpError>)
    ensures r.Ok? <==> forall i :: 0 <= i < |data| ==> FormatRow(data[i], repr).Ok?
    ensures r.Err? ==> r.error == FormatFailed
    ensures r.Ok? ==> |r.value| == |data|
    ensures r.Ok? ==> forall i :: 0 <= i < |data| ==> FormatRow(data[i], repr) == Ok(r.value[i])
  {
    assert forall i :: 0 <= i < |data| ==> RowOf(repr)(i, data[i]) == FormatRow(data[i], repr);
    Traverse(data, RowOf(repr))
  }

  /** What `format_data_as_csv` returns: the rows joined by newlines. */
  function Csv(data: seq<Json>, repr: Json -> string): (r: Result<string, HttpError>)
    ensures r.Ok? <==> forall i :: 0 <= i < |data| ==> FormatRow(data[i], repr).Ok?
    ensures r.Err? ==> r == Err(FormatFailed)
  {
    match Rows(data, repr)
    case Ok(rows) => Ok(Join("\n", rows))
    case Err(e) => Err(e)
  }

  /** `format_data_as_csv`: renders the items one by one, appending each row. */
  method FormatDataAsCsv(data: seq<Json>, repr: Json -> string) returns (r: Result<string, HttpError>)
    ensures r == Csv(data, repr)
  {
    var lines: seq<string> := [];
    for k := 0 to |data|
      invariant Rows(data[..k], repr) == Ok(lines)
    {
      assert data[..k + 1][..k] == data[..k];
      var row := FormatRow(data[k], repr);
      if row.Err? {
        assert data[..k + 1][k] == data[k];
        assert !Rows(data[..k + 1], repr).Ok?;
        TraverseStops(data, RowOf(repr), k + 1);
        return Err(FormatFailed);
      }
      lines := lines + [row.value];
    }
    assert data[..|data|] == data;
    r := Ok(Join("\n", lines));
  }

  /** No items render as the empty string. */
  lemma {:induction false} CsvOfNothing(repr: Json -> string)
    ensures Csv([], repr) == Ok("")
  {
    assert Rows([], repr) == Ok([]);
  }

  /**
   * The CSV holds one line per item, in order and with no trailing newline:
   * splitting it at newlines gives the rows back whenever no row holds a
   * newline of its own (the caption column never does).
   */
  lemma {:induction false} CsvLinesAreRows(data: seq<Json>, repr: Json -> string)
    requires data != []
    requires Rows(data, repr).Ok?
    requires forall i :: 0 <= i < |data| ==> '\n' !in FormatRow(data[i], repr).value
    ensures Csv(data, repr).Ok?
    ensures SplitOn(Csv(data, repr).value, '\n') == Rows(data, repr).value
    ensures |SplitOn(Csv(data, repr).value, '\n')| == |data|
  {
    var rows := Rows(data, repr).value;
    forall k | 0 <= k < |rows|
      ensures '\n' !in rows[k]
    {
      assert FormatRow(data[k], repr) == Ok(rows[k]);
    }
    SplitJoin(rows, '\n');
  }

  /**
   * A row is its eight columns joined by ","; when no column holds a comma,
   * splitting the row at commas gives exactly those eight columns back.
   */
  lemma {:induction false} RowSplitsIntoColumns(item: Json, repr: Json -> string)
    requires Formattable(item)
    requires forall k :: 0 <= k < 8 ==> ',' !in ItemFields(item, repr).value[k]
    ensures |SplitOn(FormatRow(item, repr).value, ',')| == 8
    ensures SplitOn(FormatRow(item, repr).value, ',') == ItemFields(item, repr).value
  {
    SplitJoin(ItemFields(item, repr).value, ',');
  }

  /**
   * Each column is `str` of its metadata value; an absent key yields the
   * column's default: "" for every column but hashtags, which yields "[]".
   */
  lemma {:induction false} ColumnDefaults(item: Json, repr: Json -> string, k: nat)
    requires Formattable(item)
    requires k < 8 && k != 6
    ensures FieldKeys[k] in MetadataOf(item).fields ==>
      ItemFields(item, repr).value[k] == PyStr(MetadataOf(item).fields[FieldKeys[k]], repr)
    ensures FieldKeys[k] !in MetadataOf(item).fields ==>
      ItemFields(item, repr).value[k] == if k == 5 then "[]" else ""
  {
  }

  /** An item without metadata renders as seven empty columns and "[]". */
  lemma {:induction false} RowWithoutMetadata(fields: map<string, Json>, repr: Json -> string)
    requires "metadata" !in fields
    ensures ItemFields(JObj(fields), repr) == Ok(["", "", "", "", "", "[]", "", ""])
  {
    var item := JObj(fields);
    assert MetadataOf(item) == JObj(map[]);
    var cols := ItemFields(item, repr).value;
    var want := ["", "", "", "", "", "[]", "", ""];
    forall k | 0 <= k < 8
      ensures cols[k] == want[k]
    {
      if k == 6 {
        assert PyStrip("") == "";
        assert cols[6] == CaptionColumn("");
      } else {
        assert FieldKeys[k] !in MetadataOf(item).fields;
        ColumnDefaults(item, repr, k);
      }
    }
    assert cols == want;
  }

  /** The caption column is the stripped caption with newlines replaced, so it holds no newline. */
  lemma {:induction false} CaptionColumnHasNoNewline(item: Json, repr: Json -> string)
    requires Formattable(item)
    ensures '\n' !in ItemFields(item, repr).value[6]
  {
    var caption := Get(MetadataOf(item).fields, "caption", JStr("")).s;
    assert ItemFields(item, repr).value[6] == CaptionColumn(caption);
  }

  // ---------------------------------------------------------------------------
  // init_environment
  // ---------------------------------------------------------------------------

  /** The settings the back end refuses to start without. */
  const RequiredVars: seq<string> := ["ASTRADB_TOKEN", "DATASTAX_API_ENDPOINT", "GEMINI_PROMPT", "GEMINI_PROMPT_2"]

  /** `not os.getenv(v)`: unset or empty. */
  predicate Unset(env: map<string, string>, v: string) {
    v !in env || env[v] == ""
  }

  /** The names of `vars` that are unset in `env`, in their order. */
  function Missing(vars: seq<string>, env: map<string, string>): (r: seq<string>)
    ensures |r| <= |vars|
  {
    if vars == [] then []
    else (if Unset(env, vars[0]) then [vars[0]] else []) + Missing(vars[1..], env)
  }

  /** A name is listed exactly when it is one of `vars` and unset. */
  lemma {:induction false} MissingMembers(vars: seq<string>, env: map<string, string>)
    ensures forall v :: v in Missing(vars, env) <==> v in vars && Unset(env, v)
  {
    if vars != [] {
      MissingMembers(vars[1..], env);
      assert forall v :: v in vars <==> v == vars[0] || v in vars[1..];
    }
  }

  /** Listing missing names keeps the order of the list: it distributes over concatenation. */
  lemma {:induction false} MissingAppend(a: seq<string>, b: seq<string>, env: map<string, string>)
    ensures Missing(a + b, env) == Missing(a, env) + Missing(b, env)
  {
    if a == [] {
      assert a + b == b;
    } else {
      assert (a + b)[0] == a[0];
      assert (a + b)[1..] == a[1..] + b;
      MissingAppend(a[1..], b, env);
      var head := if Unset(env, a[0]) then [a[0]] else [];
      assert Missing(a + b, env) == head + Missing(a[1..] + b, env);
      assert Missing(a, env) == head + Missing(a[1..], env);
    }
  }

  /** The required names that are unset. */
  function MissingVars(env: map<string, string>): (r: seq<string>)
    ensures forall v :: v in r <==> v in RequiredVars && Unset(env, v)
  {
    MissingMembers(RequiredVars, env);
    Missing(RequiredVars, env)
  }

  /** The `ConfigError` message. */
  function MissingMessage(missing: seq<string>): string {
    "Missing required environment variables: " + Join(", ", missing)
  }

  /**
   * `init_environment` after the `.env` file has been loaded into `env`:
   * it fails exactly when a required variable is unset, naming all of them.
   */
  function InitEnvironment(env: map<string, string>): (r: Result<(), string>)
    ensures r.Ok? <==> forall v :: v in RequiredVars ==> !Unset(env, v)
    ensures r.Err? ==> r.error == MissingMessage(MissingVars(env))
  {
    var missing := MissingVars(env);
    if missing != [] then
      assert missing[0] in missing;
      Err(MissingMessage(missing))
    else
      assert forall v :: v in RequiredVars ==> !Unset(env, v) by {
        forall v | v in RequiredVars
          ensures !Unset(env, v)
        {
          assert v !in missing;
        }
      }
      Ok(())
  }

  /** When every name is unset, every name is listed. */
  lemma {:induction false} MissingAll(vars: seq<string>, env: map<string, string>)
    requires forall i :: 0 <= i < |vars| ==> Unset(env, vars[i])
    ensures Missing(vars, env) == vars
  {
    if vars != [] {
      assert Unset(env, vars[0]);
      MissingAll(vars[1..], env);
      assert [vars[0]] + vars[1..] == vars;
    }
  }

  /** With nothing set, the message names every required variable, in order. */
  lemma {:induction false} NothingSet()
    ensures InitEnvironment(map[]) == Err(MissingMessage(RequiredVars))
  {
    MissingAll(RequiredVars, map[]);
  }

  // ---------------------------------------------------------------------------
  // get_data
  // ---------------------------------------------------------------------------

  /** `doc["$vectorize"] = doc.pop("username"); doc["_id"] = id`. */
  function Rekey(doc: map<string, Json>, id: string): (r: map<string, Json>)
    requires "username" in doc
    ensures "username" !in r
    ensures "$vectorize" in r && r["$vectorize"] == doc["username"]
    ensures "_id" in r && r["_id"] == JStr(id)
    ensures forall k :: k != "username" && k != "$vectorize" && k != "_id" ==>
      (k in r <==> k in doc) && (k in r ==> r[k] == doc[k])
  {
    (doc - {"username"})["$vectorize" := doc["username"]]["_id" := JStr(id)]
  }

  /** Why the Instagram fallback failed. */
  datatype FetchFailure =
    | Raised(message: string)   // the fetch itself raised
    | NoData                    // it produced a falsy dataset
    | MissingUsername           // a document has no "username" (a `KeyError`)
    | NotADocument              // a document is not a dict

  /** A fetched document that can be re-keyed. */
  predicate IsDoc(j: Json) {
    j.JObj? && "username" in j.fields
  }

  function DocFailure(j: Json): FetchFailure {
    if j.JObj? then MissingUsername else NotADocument
  }

  /** What the loop does with the `i`-th document. */
  function RekeyStep(ids: nat -> string): (nat, Json) -> Result<Json, FetchFailure> {
    (i: nat, d: Json) => if IsDoc(d) then Ok(JObj(Rekey(d.fields, ids(i)))) else Err(DocFailure(d))
  }

  /**
   * The fetched documents re-keyed in order, the `i`-th getting the id
   * `ids(i)`; the loop stops at the first document it cannot re-key.
   */
  function Rekeyed(docs: seq<Json>, ids: nat -> string): (r: Result<seq<Json>, FetchFailure>)
    ensures r.Ok? <==> forall i :: 0 <= i < |docs| ==> IsDoc(docs[i])
    ensures r.Ok? ==> |r.value| == |docs|
    ensures r.Ok? ==> forall i :: 0 <= i < |docs| ==> r.value[i] == JObj(Rekey(docs[i].fields, ids(i)))
  {
    assert forall i :: 0 <= i < |docs| ==> RekeyStep(ids)(i, docs[i]).Ok? == IsDoc(docs[i]);
    Traverse(docs, RekeyStep(ids))
  }

  /** The failure reported is that of the first document without a username or not a dict. */
  lemma {:induction false} RekeyedFailsAtFirstBad(docs: seq<Json>, ids: nat -> string, i: nat)
    requires i < |docs| && !IsDoc(docs[i])
    requires forall j :: 0 <= j < i ==> IsDoc(docs[j])
    ensures Rekeyed(docs, ids) == Err(DocFailure(docs[i]))
  {
    assert forall j :: 0 <= j < i ==> RekeyStep(ids)(j, docs[j]).Ok?;
    TraverseFirstFailure(docs, RekeyStep(ids), i);
  }

  /** The re-keying loop of `get_data`, appending each processed document. */
  method RekeyDocs(docs: seq<Json>, ids: nat -> string) returns (r: Result<seq<Json>, FetchFailure>)
    ensures r == Rekeyed(docs, ids)
  {
    var processed: seq<Json> := [];
    for k := 0 to |docs|
      invariant Rekeyed(docs[..k], ids) == Ok(processed)
    {
      assert docs[..k + 1][..k] == docs[..k];
      assert docs[..k + 1][k] == docs[k];
      if !IsDoc(docs[k]) {
        TraverseStops(docs, RekeyStep(ids), k + 1);
        return Err(DocFailure(docs[k]));
      }
      processed := processed + [JObj(Rekey(docs[k].fields, ids(k)))];
    }
    assert docs[..|docs|] == docs;
    r := Ok(processed);
  }

  const FetchFailedPrefix := "Instagram fetch failed: "

  /** The message the fallback's failure is re-raised with: every failure is reported under one
      prefix, a raised exception with its own text after it. */
  function FetchDetail(f: FetchFailure, notADocumentMessage: string): (d: string)
    ensures |d| >= |FetchFailedPrefix| && d[..|FetchFailedPrefix|] == FetchFailedPrefix
    ensures f.Raised? ==> d == FetchFailedPrefix + f.message
    ensures f == NoData ==> d == FetchFailedPrefix + "No data fetched from Instagram"
    ensures f == MissingUsername ==> d == FetchFailedPrefix + "'username'"
    ensures f == NotADocument ==> d == FetchFailedPrefix + notADocumentMessage
  {
    match f
    case Raised(m) => FetchFailedPrefix + m
    case NoData => FetchFailedPrefix + "No data fetched from Instagram"
    case MissingUsername => FetchFailedPrefix + "'username'"
    case NotADocument => FetchFailedPrefix + notADocumentMessage
  }

  /**
   * The outcome of `get_data` given what the store returned, what the
   * Instagram fetch produced, the ids drawn for new documents and how the
   * write of the re-keyed documents to the store (`get_collection` and
   * `insert_many`) ended; `notADocumentMessage` is Python's message for a
   * non-dict document.
   */
  function DataResponse(store: Result<seq<Json>, string>, fetched: Result<Json, string>,
                        ids: nat -> string, inserted: Result<(), string>,
                        notADocumentMessage: string): (r: Result<seq<Json>, HttpError>)
    ensures store.Err? ==> r == Err(HttpError(500, store.error))
    ensures store.Ok? && store.value != [] ==> r == Ok(store.value)
    ensures store == Ok([]) && fetched.Ok? && !PyTruthy(fetched.value) ==>
      r == Err(HttpError(500, FetchFailedPrefix + "No data fetched from Instagram"))
    ensures store == Ok([]) && r.Ok? ==>
      fetched.Ok? && fetched.value.JArr? && Rekeyed(fetched.value.items, ids) == Ok(r.value) &&
      r.value != [] && inserted.Ok?
    ensures store == Ok([]) && fetched.Ok? && PyTruthy(fetched.value) && fetched.value.JArr? &&
            Rekeyed(fetched.value.items, ids).Ok? && inserted.Err? ==>
      r == Err(HttpError(500, FetchFailedPrefix + inserted.error))
    ensures store == Ok([]) && fetched.Ok? && PyTruthy(fetched.value) && fetched.value.JArr? &&
            Rekeyed(fetched.value.items, ids).Ok? && inserted.Ok? ==>
      r == Ok(Rekeyed(fetched.value.items, ids).value)
    ensures store == Ok([]) && fetched.Err? ==>
      r == Err(HttpError(500, FetchFailedPrefix + fetched.error))
    ensures store == Ok([]) && fetched.Ok? && PyTruthy(fetched.value) && !fetched.value.JArr? ==>
      r == Err(HttpError(500, FetchFailedPrefix + notADocumentMessage))
    ensures store == Ok([]) && fetched.Ok? && PyTruthy(fetched.value) && fetched.value.JArr? &&
            Rekeyed(fetched.value.items, ids).Err? ==>
      r == Err(HttpError(500, FetchDetail(Rekeyed(fetched.value.items, ids).error, notADocumentMessage)))
    ensures r.Err? ==> r.error.status == 500
  {
    match store
    case Err(m) => Err(HttpError(500, m))
    case Ok(result) =>
      if result != [] then Ok(result)
      else match fetched
        case Err(m) => Err(HttpError(500, FetchDetail(Raised(m), notADocumentMessage)))
        case Ok(data) =>
          if !PyTruthy(data) then Err(HttpError(500, FetchDetail(NoData, notADocumentMessage)))
          else if !data.JArr? then Err(HttpError(500, FetchDetail(NotADocument, notADocumentMessage)))
          else match Rekeyed(data.items, ids)
            case Err(f) => Err(HttpError(500, FetchDetail(f, notADocumentMessage)))
            case Ok(docs) =>
              if inserted.Err? then Err(HttpError(500, FetchDetail(Raised(inserted.error), notADocumentMessage)))
              else Ok(docs)
  }

  /** `get_data`: the store first; the Instagram fetch, the re-keying loop and the write back to
      the store only on an empty result. */
  method GetData(store: Result<seq<Json>, string>, fetched: Result<Json, string>,
                 ids: nat -> string, inserted: Result<(), string>, notADocumentMessage: string)
    returns (r: Result<seq<Json>, HttpError>)
    ensures r == DataResponse(store, fetched, ids, inserted, notADocumentMessage)
  {
    if store.Err? {
      return Err(HttpError(500, store.error));
    }
    if store.value != [] {
      return Ok(store.value);
    }
    if fetched.Err? {
      return Err(HttpError(500, FetchDetail(Raised(fetched.error), notADocumentMessage)));
    }
    var data := fetched.value;
    if !PyTruthy(data) {
      return Err(HttpError(500, FetchDetail(NoData, notADocumentMessage)));
    }
    if !data.JArr? {
      return Err(HttpError(500, FetchDetail(NotADocument, notADocumentMessage)));
    }
    var processed := RekeyDocs(data.items, ids);
    if processed.Err? {
      return Err(HttpError(500, FetchDetail(processed.error, notADocumentMessage)));
    }
    if inserted.Err? {
      return Err(HttpError(500, FetchDetail(Raised(inserted.error), notADocumentMessage)));
    }
    r := Ok(processed.value);
  }

  /** Once the store has posts, neither what Instagram would have returned nor how a write would
      have ended makes a difference. */
  lemma {:induction false} StoreHitIgnoresFetch(posts: seq<Json>, f1: Result<Json, string>, f2: Result<Json, string>,
                                               ids: nat -> string, w1: Result<(), string>, w2: Result<(), string>,
                                               msg: string)
    requires posts != []
    ensures DataResponse(Ok(posts), f1, ids, w1, msg) == DataResponse(Ok(posts), f2, ids, w2, msg) == Ok(posts)
  {
  }

  // ---------------------------------------------------------------------------
  // get_insights: the Gemini fallback prompt
  // ---------------------------------------------------------------------------

  /** `os.getenv(name)` inside an f-string: an unset variable prints as `None`. */
  function EnvText(env: map<string, string>, name: string): string {
    if name in env then env[name] else "None"
  }

  /** The prompt of the Gemini fallback. */
  function GeminiPrompt(env: map<string, string>, query: string, csv: string): (p: string)
    ensures p == Join("\n", [EnvText(env, "GEMINI_PROMPT"), query, EnvText(env, "GEMINI_PROMPT_2"), csv])
  {
    var p1, p2 := EnvText(env, "GEMINI_PROMPT"), EnvText(env, "GEMINI_PROMPT_2");
    var parts := [p1, query, p2, csv];
    assert parts[1..] == [query, p2, csv] && parts[1..][1..] == [p2, csv] && parts[1..][1..][1..] == [csv];
    assert Join("\n", [p2, csv]) == p2 + "\n" + csv;
    assert Join("\n", [query, p2, csv]) == query + "\n" + (p2 + "\n" + csv);
    p1 + "\n" + (query + "\n" + (p2 + "\n" + csv))
  }

  /**
   * When neither prompt nor the query holds a newline, the prompt's first
   * three lines are the first prompt, the query and the second prompt, and
   * the remaining lines are those of the CSV.
   */
  lemma {:induction false} PromptLines(env: map<string, string>, query: string, csv: string)
    requires '\n' !in EnvText(env, "GEMINI_PROMPT")
    requires '\n' !in query
    requires '\n' !in EnvText(env, "GEMINI_PROMPT_2")
    ensures SplitOn(GeminiPrompt(env, query, csv), '\n') ==
      [EnvText(env, "GEMINI_PROMPT"), query, EnvText(env, "GEMINI_PROMPT_2")] + SplitOn(csv, '\n')
  {
    var p1 := EnvText(env, "GEMINI_PROMPT");
    var p2 := EnvText(env, "GEMINI_PROMPT_2");
    assert GeminiPrompt(env, query, csv) == p1 + "\n" + (query + "\n" + (p2 + "\n" + csv));
    ThreeLinesFirst(p1, query, p2, csv);
  }

  lemma {:induction false} ThreeLinesFirst(a: string, b: string, c: string, rest: string)
    requires '\n' !in a && '\n' !in b && '\n' !in c
    ensures SplitOn(a + "\n" + (b + "\n" + (c + "\n" + rest)), '\n') == [a, b, c] + SplitOn(rest, '\n')
  {
    var tail := SplitOn(rest, '\n');
    var t3 := c + "\n" + rest;
    var t2 := b + "\n" + t3;
    SplitAfterSegment(c, rest, '\n');
    SplitAfterSegment(b, t3, '\n');
    SplitAfterSegment(a, t2, '\n');
    assert [a] + ([b] + ([c] + tail)) == [a, b, c] + tail;
  }
}
