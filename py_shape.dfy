/** The shape test that app.py (lines 47-62) and grpc_server.py (lines 52-70)
    apply, word for word the same, to the decoded upstream payload `data`. */
module PyShape {
  import opened JsonValue
  import opened PySemantics
  import opened Airia

  /** `"result" in data and isinstance(data["result"], str)`, giving the string. */
  function StringResultOf(data: Json): PyResult<Option<string>> {
    var present :- In("result", data);
    if !present then Ok(None)
    else
      var v :- Item(data, "result");
      Ok(if v.JStr? then Some(v.s) else None)
  }

  /** The six-part test of case 2, then `data["output"][0]["content"][0]["text"]`. */
  function NestedTextOf(data: Json): PyResult<Option<Json>> {
    var hasOutput :- In("output", data);
    if !hasOutput then Ok(None)
    else
      var output :- Item(data, "output");
      if !output.JArr? then Ok(None)
      else
        var n :- Len(output);
        if n == 0 then Ok(None)
        else
          var first :- ItemZero(output);
          var hasContent :- In("content", first);
          if !hasContent then Ok(None)
          else
            var content :- Item(first, "content");
            var m :- Len(content);
            if m == 0 then Ok(None)
            else
              var block :- ItemZero(content);
              var hasText :- In("text", block);
              if !hasText then Ok(None)
              else
                var text :- Item(block, "text");
                Ok(Some(text))
  }

  /** The if/elif/else chain: case 1 first, then case 2, then neither. */
  function Classify(data: Json): PyResult<Shape> {
    var s :- StringResultOf(data);
    if s.Some? then Ok(StringResult(s.value))
    else
      var t :- NestedTextOf(data);
      Ok(if t.Some? then NestedContent(t.value) else NoShape)
  }

  /** Case 1 is chosen exactly when `data` is a dict whose `result` is a
      string, whatever else it holds (an `output` entry included). */
  lemma StringResultChosenIff(data: Json, s: string)
    ensures Classify(data) == Ok(StringResult(s)) <==>
            data.JObj? && "result" in data.fields && data.fields["result"] == JStr(s)
  {
    if data.JObj? && "result" in data.fields && data.fields["result"] == JStr(s) {
      assert StringResultOf(data) == Ok(Some(s));
    }
  }

  /** Case 2 is chosen exactly when case 1 is not and `data` reaches the text
      along `output[0].content[0].text` through dicts and lists. */
  lemma NestedContentChosenIff(data: Json, t: Json)
    ensures Classify(data) == Ok(NestedContent(t)) <==> !HasStringResult(data) && NestedAt(data, t)
  {
    if !HasStringResult(data) && NestedAt(data, t) {
      assert StringResultOf(data) == Ok(None);
      var output := data.fields["output"];
      var first := output.items[0];
      var content := first.fields["content"];
      assert NestedTextOf(data) == Ok(Some(t));
    }
    if Classify(data) == Ok(NestedContent(t)) {
      NestedTextShape(data);
    }
  }

  /** Whenever the case-2 extraction yields a value, the path consists of
      dicts and lists (a string, list or scalar on the way either fails the
      test or raises). */
  lemma NestedTextShape(data: Json)
    requires NestedTextOf(data).Ok? && NestedTextOf(data).value.Some?
    ensures NestedAt(data, NestedTextOf(data).value.value)
  {
    var output := data.fields["output"];
    var first := output.items[0];
    assert first.JObj?;
    var content := first.fields["content"];
    assert content.JArr?;
    assert content.items[0].JObj?;
  }

  /** A payload with no known key is of no known shape. */
  lemma UnknownKeysAreNoShape(data: Json)
    requires data.JObj? && "result" !in data.fields && "output" !in data.fields
    ensures Classify(data) == Ok(NoShape)
  {
  }
}
