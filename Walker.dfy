/** The propagation walker `whatCases`: for each test case in turn, the
    description of the user story it belongs to is fetched and written onto
    the test case, and the walk only advances once that update succeeds. The
    script's recursion on `cases.slice(1)` is a loop here; the remote get and
    update calls are oracles, and the walk returns the updates it issued and
    why it stopped instead of logging. */
module Walker {
  import opened Js
  import opened Shaper

  /** A test-case record: its own reference and its `workProduct`, the
      reference of its user story (possibly falsy). */
  datatype TestCase = TestCase(ref: Value, workProduct: Value)

  /** One `restAPI.update` call: `{ref, data: {Description: description}}`. */
  datatype Update = Update(ref: Value, description: Value)

  /** Why the walk ended. `StoryFetchFailed` names the handler for a rejected
      `getItemData` promise. With the responses modelled here it never runs:
      a failed get resolves to `''`, and a successful get is assumed to carry
      an `Object`. It stands for the response shape without `Object` that
      the model abstracts away, whose `TypeError` would reject the promise. */
  datatype Halt = Finished | NoUserStory | CopyFailed | StoryFetchFailed

  /** The description copied from a story: `data.description` of what
      `getItemData(storyRef, ['Description'], [])` resolves to. A failed fetch
      resolves to `''`, whose `description` is `undefined`. */
  function CopiedDescription(fetched: Fetch<Object>): Value
  {
    match fetched
    case GetFailed => Undef
    case Got(obj) => Shape(Fact, Get(obj, "Description"))
  }

  /** `data.description` for what `getItemData` resolved to. */
  function DescriptionOf(data: Shaped<Object>): (r: Value)
    ensures !data.Data? ==> r == Undef
    ensures data.Data? && "description" in data.value ==> r == data.value["description"]
    ensures data.Data? && "description" !in data.value ==> r == Undef
  {
    match data
    case Data(record) => Get(record, "description")
    case _ => Undef
  }

  /** The record `getItemData` builds for a story holds the story's
      description under `description`. */
  lemma StoryRecordDescription(obj: Object)
    ensures DescriptionOf(Data(ItemRecord(obj, ["Description"], []))) == CopiedDescription(Got(obj))
  {
    assert Lc0("Description") == "description";
    assert LastWrite(["Description"], 0);
    ItemRecordFact(obj, ["Description"], [], 0);
  }

  /** Every case has a user story and every update would succeed. */
  predicate AllCopyable(cases: seq<TestCase>, fetch: (nat, Value) -> Fetch<Object>,
                        update: (nat, Value, Value) -> bool)
  {
    forall k :: 0 <= k < |cases| ==>
      Truthy(cases[k].workProduct)
      && update(k, cases[k].ref, CopiedDescription(fetch(k, cases[k].workProduct)))
  }

  /** `whatCases(cases)`. `fetch(k, storyRef)` gives what the get of the
      story issued at step `k` settles to, and `update(k, ref, description)`
      whether the update issued at step `k` succeeds; the step index lets
      each call answer on its own, as separate remote calls do. The
      issued updates are one per case, in order, each carrying that case's
      story description, and they cover a prefix of the cases: the walk stops
      before the first case without a story, and right after the first
      failed update. */
  method WhatCases(cases: seq<TestCase>, fetch: (nat, Value) -> Fetch<Object>,
                   update: (nat, Value, Value) -> bool)
    returns (issued: seq<Update>, halt: Halt)
    ensures |issued| <= |cases|
    ensures forall k :: 0 <= k < |issued| ==>
      && Truthy(cases[k].workProduct)
      && issued[k] == Update(cases[k].ref, CopiedDescription(fetch(k, cases[k].workProduct)))
    ensures forall k :: 0 <= k < |issued| - 1 ==> update(k, issued[k].ref, issued[k].description)
    ensures halt == CopyFailed <==>
      |issued| > 0 && !update(|issued| - 1, issued[|issued| - 1].ref, issued[|issued| - 1].description)
    ensures halt == NoUserStory ==> |issued| < |cases| && !Truthy(cases[|issued|].workProduct)
    ensures halt == Finished ==> |issued| == |cases|
    ensures halt != StoryFetchFailed
    ensures AllCopyable(cases, fetch, update) ==> halt == Finished && |issued| == |cases|
  {
    issued := [];
    var i := 0;
    while i < |cases|
      invariant i <= |cases|
      invariant |issued| == i
      invariant forall k :: 0 <= k < i ==>
        && Truthy(cases[k].workProduct)
        && issued[k] == Update(cases[k].ref, CopiedDescription(fetch(k, cases[k].workProduct)))
        && update(k, issued[k].ref, issued[k].description)
    {
      var firstCase := cases[i];
      var storyRef := firstCase.workProduct;
      if !Truthy(storyRef) {
        return issued, NoUserStory;
      }
      var data := GetItemData(storyRef, ["Description"], [], fetch(i, storyRef));
      if data.Data? {
        StoryRecordDescription(fetch(i, storyRef).value);
      }
      var description := DescriptionOf(data);
      issued := issued + [Update(firstCase.ref, description)];
      if !update(i, firstCase.ref, description) {
        return issued, CopyFailed;
      }
      i := i + 1;
    }
    halt := Finished;
  }

  /** The end-to-end run: two cases whose stories have descriptions "A" and
      "B" are updated with those, in order, and the walk finishes. */
  method EndToEnd()
  {
    var cases := [TestCase(Str("/tc/1"), Str("/story/1")), TestCase(Str("/tc/2"), Str("/story/2"))];
    var fetch := (step: nat, storyRef: Value) =>
      if storyRef == Str("/story/1") then Got(map["Description" := Str("A")])
      else if storyRef == Str("/story/2") then Got(map["Description" := Str("B")])
      else GetFailed;
    var update := (step: nat, ref: Value, description: Value) => true;
    var issued, halt := WhatCases(cases, fetch, update);
    assert issued == [Update(Str("/tc/1"), Str("A")), Update(Str("/tc/2"), Str("B"))];
    assert halt == Finished;
  }

  /** A first case without a story stops the walk before anything is
      issued, and the second case is never reached. */
  method MissingStoryFirst()
  {
    var cases := [TestCase(Str("/tc/1"), Undef), TestCase(Str("/tc/2"), Str("/story/2"))];
    var fetch := (step: nat, storyRef: Value) => Got(map["Description" := Str("B")]);
    var update := (step: nat, ref: Value, description: Value) => true;
    var issued, halt := WhatCases(cases, fetch, update);
    assert !Truthy(cases[0].workProduct);
    assert |issued| == 0;
    assert halt == NoUserStory;
  }

  /** A failed story fetch does not stop the walk: the case is updated with
      an undefined description and, since that update succeeds, the next case
      is processed. Both cases share one story; only the first get fails. */
  method FailedStoryFetchContinues()
  {
    var cases := [TestCase(Str("/tc/1"), Str("/story/1")), TestCase(Str("/tc/2"), Str("/story/1"))];
    var fetch := (step: nat, storyRef: Value) =>
      if step == 0 then GetFailed else Got(map["Description" := Str("A")]);
    var update := (step: nat, ref: Value, description: Value) => true;
    var issued, halt := WhatCases(cases, fetch, update);
    assert issued == [Update(Str("/tc/1"), Undef), Update(Str("/tc/2"), Str("A"))];
    assert halt == Finished;
  }
}
