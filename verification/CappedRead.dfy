/** Reads capped at a maximum: the mongo cursor loop (crates/fabric-backends/src/mongo.rs,
    `drain_cursor`) and the SQL row conversion (crates/fabric-backends/src/db.rs, `rows_to_json`) keep
    the same items and set the same flag. */
module CappedRead {
  import opened Wire
  import opened BsonJson

  /** The common meaning: the first `max` items, and whether there were more. */
  function Capped<T>(items: seq<T>, max: nat): (seq<T>, bool) {
    (if |items| > max then items[..max] else items, |items| > max)
  }

  function Mapped<S, T>(items: seq<S>, convert: S -> T): seq<T> {
    seq(|items|, i requires 0 <= i < |items| => convert(items[i]))
  }

  /** The row conversion: decide truncation, take that many, convert each. */
  function RowsToJson<S, T>(rows: seq<S>, max: nat, convert: S -> T): (seq<T>, bool) {
    var truncated := |rows| > max;
    var limit := if truncated then max else |rows|;
    (Mapped(rows[..limit], convert), truncated)
  }

  /** What advancing a cursor may bring: a document that may fail to deserialize, or a driver error.
      After the last of these the cursor is exhausted. */
  datatype Fetch<E> = Found(document: Result<seq<Field>, E>) | Broken(error: E)

  /** What a read replies, and the figures its metric carries. */
  datatype Drained = Drained(docs: seq<Json>, count: nat, truncated: bool, docsReturned: nat)

  /** The error step `i` would raise: an advance is needed up to the item after the cap, a document is
      only deserialized below the cap. */
  function ErrorAt<E>(source: seq<Fetch<E>>, max: nat, i: nat): Option<E>
    requires i < |source|
  {
    if i > max then None
    else if source[i].Broken? then Some(source[i].error)
    else if i < max && source[i].document.Err? then Some(source[i].document.error)
    else None
  }

  ghost predicate FirstError<E>(source: seq<Fetch<E>>, max: nat, error: E) {
    exists i :: 0 <= i < |source|
      && ErrorAt(source, max, i) == Some(error)
      && (forall j :: 0 <= j < i ==> ErrorAt(source, max, j).None?)
  }

  /** The documents a cursor without early errors yields below the cap, converted. */
  function DocsOf<E>(source: seq<Fetch<E>>, n: nat): seq<Json>
    requires n <= |source|
    requires forall i :: 0 <= i < n ==> source[i].Found? && source[i].document.Ok?
  {
    seq(n, i requires 0 <= i < n => DocumentJson(source[i].document.value))
  }

  /** The cursor loop. It fails exactly with the first error within reach; otherwise it keeps the
      capped documents in order and flags truncation exactly when there was one more. It never
      advances more than `max + 1` times, and the metric figures are those of the reply. */
  method DrainCursor<E>(source: seq<Fetch<E>>, max: nat) returns (r: Result<Drained, E>, advances: nat)
    ensures advances <= max + 1
    ensures r.Ok? <==> forall i :: 0 <= i < |source| ==> ErrorAt(source, max, i).None?
    ensures r.Err? ==> FirstError(source, max, r.error)
    ensures r.Ok? ==>
      var n := if |source| > max then max else |source|;
      && (forall i :: 0 <= i < n ==> source[i].Found? && source[i].document.Ok?)
      && r.value == Drained(DocsOf(source, n), n, |source| > max, n)
      && advances == n + 1
  {
    var docs: seq<Json> := [];
    var truncated := false;
    var position := 0;
    advances := 0;
    while true
      invariant position == |docs| == advances <= |source| && position <= max && !truncated
      invariant forall i :: 0 <= i < position ==> source[i].Found? && source[i].document.Ok?
      invariant docs == DocsOf(source, position)
      decreases |source| - position
    {
      advances := advances + 1;
      if position == |source| {
        break;
      }
      if source[position].Broken? {
        assert ErrorAt(source, max, position) == Some(source[position].error);
        return Err(source[position].error), advances;
      }
      if |docs| >= max {
        truncated := true;
        break;
      }
      if source[position].document.Err? {
        assert ErrorAt(source, max, position) == Some(source[position].document.error);
        return Err(source[position].document.error), advances;
      }
      var converted := ConvertDocument(source[position].document.value);
      docs := docs + [converted];
      position := position + 1;
    }
    r := Ok(Drained(docs, |docs|, truncated, |docs|));
  }

  /** Taking then converting is converting then taking. */
  lemma RowsAreCapped<S, T>(rows: seq<S>, max: nat, convert: S -> T)
    ensures RowsToJson(rows, max, convert) == Capped(Mapped(rows, convert), max)
  {
    var limit := if |rows| > max then max else |rows|;
    assert Mapped(rows[..limit], convert) == Mapped(rows, convert)[..limit];
    assert Mapped(rows, convert)[..|rows|] == Mapped(rows, convert);
  }

  /** Over a source without errors the two reads agree: same items, same flag. */
  lemma CappedReadsAgree<E>(documents: seq<seq<Field>>, source: seq<Fetch<E>>, max: nat)
    requires |source| == |documents|
    requires forall i :: 0 <= i < |source| ==> source[i] == Found(Ok(documents[i]))
    ensures var n := if |source| > max then max else |source|;
      (DocsOf(source, n), |source| > max) == RowsToJson(documents, max, DocumentJson)
  {
    var n := if |source| > max then max else |source|;
    var docs, rows := DocsOf(source, n), RowsToJson(documents, max, DocumentJson).0;
    assert |docs| == |rows|;
    forall i | 0 <= i < n ensures docs[i] == rows[i] {
      assert rows[i] == DocumentJson(documents[..n][i]);
    }
    assert docs == rows;
  }
}
