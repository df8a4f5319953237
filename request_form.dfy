/** `src/components/RequestForm.tsx`: the one-shot request form. Its header rows are objects:
    the list is copied on every edit, but `updateHeader` writes into the row object itself, so
    whoever else holds that row (the caller that supplied the initial rows) sees the write. */
module RequestForm {
  import opened WebhookTypes
  import opened Text
  import RowEdits

  /** A header row object `{ key, value }`. */
  class HeaderRow {
    var key: string
    var value: string

    constructor(key: string, value: string)
      ensures this.key == key && this.value == value
    {
      this.key := key;
      this.value := value;
    }
  }

  /** The values the row objects hold now. */
  function Snapshot(rows: seq<HeaderRow>): (hs: seq<Header>)
    reads rows
    ensures |hs| == |rows|
    ensures forall i :: 0 <= i < |rows| ==> hs[i] == Header(rows[i].key, rows[i].value)
  {
    seq(|rows|, i reads rows requires 0 <= i < |rows| => Header(rows[i].key, rows[i].value))
  }

  lemma SnapshotReplace(rows: seq<HeaderRow>, index: int, row: HeaderRow)
    requires 0 <= index < |rows|
    ensures Snapshot(rows[index := row]) == Snapshot(rows)[index := Header(row.key, row.value)]
  {
  }

  /** No row object occurs twice in the list. */
  ghost predicate DistinctRows(rows: seq<HeaderRow>) {
    forall i, j :: 0 <= i < j < |rows| ==> rows[i] != rows[j]
  }

  /** The `initialData` prop: the caller's url, method and header row objects. */
  datatype InitialData = InitialData(url: string, httpMethod: string, headers: seq<HeaderRow>)

  const DefaultBody := "{\n  \"message\": \"Hello, webhook!\"\n}"

  /** `headers.filter(h => h.key.trim() !== '')`. */
  function NamedRows(hs: seq<Header>): (r: seq<Header>)
    ensures |r| <= |hs|
    ensures forall i :: 0 <= i < |r| ==> !IsBlank(r[i].key)
  {
    if hs == [] then []
    else (if IsBlank(hs[0].key) then [] else [hs[0]]) + NamedRows(hs[1..])
  }

  /** Every row with a non-blank name is kept as often as it occurs; no other row is kept. */
  lemma {:induction false} NamedRowsCounts(hs: seq<Header>, h: Header)
    ensures multiset(NamedRows(hs))[h] == if IsBlank(h.key) then 0 else multiset(hs)[h]
  {
    if hs != [] {
      var rest := hs[1..];
      NamedRowsCounts(rest, h);
      assert hs == [hs[0]] + rest;
      if IsBlank(hs[0].key) {
        assert NamedRows(hs) == NamedRows(rest);
      } else {
        assert NamedRows(hs) == [hs[0]] + NamedRows(rest);
      }
    }
  }

  /** Filtering distributes over concatenation, so the kept rows stay in their original order. */
  lemma {:induction false} NamedRowsAppend(a: seq<Header>, b: seq<Header>)
    ensures NamedRows(a + b) == NamedRows(a) + NamedRows(b)
  {
    if a == [] {
      assert a + b == b;
    } else {
      assert (a + b)[1..] == a[1..] + b;
      NamedRowsAppend(a[1..], b);
      var head := if IsBlank(a[0].key) then [] else [a[0]];
      assert NamedRows(a + b) == head + NamedRows(a[1..] + b);
      assert head + (NamedRows(a[1..]) + NamedRows(b)) == (head + NamedRows(a[1..])) + NamedRows(b);
    }
  }

  /** `body.trim() || undefined`. */
  function SubmittedBody(body: string): (r: Option<string>)
    ensures r.None? <==> forall i :: 0 <= i < |body| ==> IsWhitespace(body[i])
    ensures r.Some? ==> r.value == Trim(body) && r.value != ""
  {
    var t := Trim(body);
    if t == "" then None else Some(t)
  }

  class Form {
    var url: string
    var httpMethod: string
    var rows: seq<HeaderRow>
    var body: string

    /** The initial state: `initialData?.url || ''`, `initialData?.method || 'POST'`, the caller's rows
        when there are any and otherwise one new empty row, and the sample JSON body. */
    constructor(initial: Option<InitialData>)
      ensures url == if initial.Some? then initial.value.url else ""
      ensures httpMethod == if initial.Some? && initial.value.httpMethod != "" then initial.value.httpMethod else "POST"
      ensures initial.Some? && |initial.value.headers| > 0 ==> rows == initial.value.headers
      ensures !(initial.Some? && |initial.value.headers| > 0) ==>
        |rows| == 1 && fresh(rows[0]) && rows[0].key == "" && rows[0].value == ""
      ensures body == DefaultBody
    {
      url := if initial.Some? then initial.value.url else "";
      httpMethod := if initial.Some? && initial.value.httpMethod != "" then initial.value.httpMethod else "POST";
      if initial.Some? && |initial.value.headers| > 0 {
        rows := initial.value.headers;
      } else {
        var empty := new HeaderRow("", "");
        rows := [empty];
      }
      body := DefaultBody;
    }

    /** The effect that runs when `initialData` changes: takes over its url, method and rows
        (no `POST` fallback here), keeping the body. */
    method Load(data: InitialData)
      modifies this
      ensures url == data.url && httpMethod == data.httpMethod && body == old(body)
      ensures |data.headers| > 0 ==> rows == data.headers
      ensures |data.headers| == 0 ==> |rows| == 1 && fresh(rows[0]) && rows[0].key == "" && rows[0].value == ""
    {
      url := data.url;
      httpMethod := data.httpMethod;
      if |data.headers| > 0 {
        rows := data.headers;
      } else {
        var empty := new HeaderRow("", "");
        rows := [empty];
      }
    }

    /** `addHeader`: appends one new empty row. */
    method AddHeader()
      modifies this
      ensures |rows| == |old(rows)| + 1 && rows[..|old(rows)|] == old(rows)
      ensures fresh(rows[|rows| - 1]) && rows[|rows| - 1].key == "" && rows[|rows| - 1].value == ""
      ensures Snapshot(rows) == old(Snapshot(rows)) + [RowEdits.EmptyHeader]
      ensures url == old(url) && httpMethod == old(httpMethod) && body == old(body)
    {
      var empty := new HeaderRow("", "");
      rows := rows + [empty];
    }

    /** `removeHeader(index)`: drops the row at `index`; any other index leaves the list as it is. */
    method RemoveHeader(index: int)
      modifies this
      ensures rows == RowEdits.RemoveAt(old(rows), index)
      ensures 0 <= index < |old(rows)| ==> |rows| == |old(rows)| - 1
      ensures url == old(url) && httpMethod == old(httpMethod) && body == old(body)
    {
      rows := RowEdits.RemoveAt(rows, index);
    }

    /** `updateHeader(index, field, value)` as written: copies the list, then assigns the field of the
        row object at `index`. Out of range, `newHeaders[index]` is undefined and the assignment throws
        before any state changes (`ok` is false). The list keeps the same row objects. */
    method UpdateHeader(index: int, field: HeaderField, v: string) returns (ok: bool)
      modifies rows
      ensures ok <==> 0 <= index < |rows|
      ensures rows == old(rows)
      ensures ok && field == Key ==> rows[index].key == v && rows[index].value == old(rows[index].value)
      ensures ok && field == Value ==> rows[index].value == v && rows[index].key == old(rows[index].key)
      ensures forall j :: 0 <= j < |rows| && (!ok || rows[j] != rows[index]) ==>
        rows[j].key == old(rows[j].key) && rows[j].value == old(rows[j].value)
      ensures DistinctRows(rows) ==> Snapshot(rows) == RowEdits.UpdateAt(old(Snapshot(rows)), index, field, v)
    {
      ok := 0 <= index < |rows|;
      if ok {
        var row := rows[index];
        match field {
          case Key => row.key := v;
          case Value => row.value := v;
        }
      }
    }

    /** The evidently intended `updateHeader`: replaces the row at `index` with a new object carrying
        the edit, as the profile form does, and writes into no existing row. */
    method UpdateHeaderCopying(index: int, field: HeaderField, v: string) returns (ok: bool)
      modifies this
      ensures ok <==> 0 <= index < |old(rows)|
      ensures |rows| == |old(rows)|
      ensures forall j :: 0 <= j < |rows| && j != index ==> rows[j] == old(rows[j])
      ensures ok ==> fresh(rows[index])
      ensures Snapshot(rows) == RowEdits.UpdateAt(old(Snapshot(rows)), index, field, v)
      ensures url == old(url) && httpMethod == old(httpMethod) && body == old(body)
    {
      ghost var before := Snapshot(rows);
      ok := 0 <= index < |rows|;
      if ok {
        var current := rows[index];
        var edited := RowEdits.SetField(Header(current.key, current.value), field, v);
        var row := new HeaderRow(edited.key, edited.value);
        assert Snapshot(rows) == before;
        SnapshotReplace(rows, index, row);
        rows := rows[index := row];
        assert Snapshot(rows) == before[index := edited];
      }
      RowEdits.UpdateAtReplaces(before, index, field, v);
      assert before == old(Snapshot(rows));
    }

    /** `handleSubmit`: nothing is sent for a blank url; otherwise the request carries the trimmed url,
        the rows whose trimmed name is non-empty, and the trimmed body or none. */
    method Submit() returns (request: Option<WebhookRequest>)
      ensures request.None? <==> IsBlank(url)
      ensures request.Some? ==>
        request.value == WebhookRequest(Trim(url), httpMethod, NamedRows(Snapshot(rows)), SubmittedBody(body))
    {
      if Trim(url) == "" {
        return None;
      }
      request := Some(WebhookRequest(Trim(url), httpMethod, NamedRows(Snapshot(rows)), SubmittedBody(body)));
    }
  }

  /** The write-through of `updateHeader`: a form started from rows the caller still holds
      (the tester passes the active profile's header objects) changes the caller's row. */
  method EditReachesCallerRow(data: InitialData, v: string) returns (form: Form)
    requires |data.headers| > 0
    modifies data.headers
    ensures form.rows == data.headers
    ensures data.headers[0].value == v
  {
    form := new Form(Some(data));
    var ok := form.UpdateHeader(0, Value, v);
  }

  /** With the copying edit the caller's rows keep their values while the form shows the edit. */
  method CopyingEditLeavesCallerRow(data: InitialData, v: string) returns (form: Form)
    requires |data.headers| > 0
    ensures data.headers[0].value == old(data.headers[0].value)
    ensures |form.rows| == |data.headers|
    ensures Snapshot(form.rows)[0].value == v
  {
    form := new Form(Some(data));
    var ok := form.UpdateHeaderCopying(0, Value, v);
  }
}
