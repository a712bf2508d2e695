/** An abstract OpenSearch: named indices, each with a fixed vector dimension
    and the documents loaded into it in order. Whether the store accepts a
    creation or a bulk load is an oracle (`Backend`). */
module Store {
  import opened Wrappers
  import opened Errors

  /** A stored document: the `_source` of one bulk action. */
  datatype Document = Document(
    content: string,
    contentType: string,
    filename: Option<string>,
    embedding: seq<real>)

  datatype Index = Index(dimension: nat, docs: seq<Document>)

  type Store = map<string, Index>

  /** One bulk action: the target index and the document to load. */
  datatype Action = Action(index: string, source: Document)

  /** The store's answers to the requests that can fail: the existence check
      together with the deletion of an existing index, the creation of an
      index, and a non-empty bulk load. */
  datatype Backend = Backend(
    dropOk: (Store, string) -> bool,
    createOk: (Store, string) -> bool,
    bulkOk: (Store, seq<Action>) -> bool)

  datatype Outcome = Done | Raised(error: Error)

  /** The store after an operation, and whether the operation raised. */
  datatype Step = Step(store: Store, outcome: Outcome)

  /** Every document's embedding has its index's dimension. */
  ghost predicate WellFormed(s: Store) {
    forall name, j :: name in s && 0 <= j < |s[name].docs| ==>
      |s[name].docs[j].embedding| == s[name].dimension
  }

  predicate Targets(s: Store, actions: seq<Action>) {
    forall j :: 0 <= j < |actions| ==> actions[j].index in s
  }

  /** Loads the actions one by one, each document appended to its target index. */
  function Apply(s: Store, actions: seq<Action>): (r: Store)
    requires Targets(s, actions)
    ensures r.Keys == s.Keys
    ensures forall name :: name in s ==> r[name].dimension == s[name].dimension
  {
    if actions == [] then s
    else
      var mid := Apply(s, actions[..|actions| - 1]);
      var a := actions[|actions| - 1];
      mid[a.index := mid[a.index].(docs := mid[a.index].docs + [a.source])]
  }

  /** A bulk load: all actions applied, or the store unchanged and `BulkFailed`
      raised when the backend refuses or a target index is missing. An empty
      batch sends no request and always succeeds. */
  function Bulk(s: Store, backend: Backend, actions: seq<Action>): (r: Step)
    ensures r.outcome.Done? <==> actions == [] || (Targets(s, actions) && backend.bulkOk(s, actions))
    ensures actions == [] ==> r == Step(s, Done)
    ensures r.outcome.Raised? ==> r == Step(s, Raised(BulkFailed))
    ensures r.store.Keys == s.Keys
    ensures r.outcome.Done? ==>
              forall n :: n in s && (forall j :: 0 <= j < |actions| ==> actions[j].index == n) ==>
                r.store == s[n := s[n].(docs := s[n].docs + Sources(actions))]
  {
    if actions == [] then
      assert forall n :: n in s ==> s[n := s[n].(docs := s[n].docs + Sources(actions))] == s by {
        forall n | n in s ensures s[n := s[n].(docs := s[n].docs + Sources(actions))] == s {
          assert s[n].docs + Sources(actions) == s[n].docs;
        }
      }
      Step(s, Done)
    else if Targets(s, actions) && backend.bulkOk(s, actions) then
      assert forall n :: n in s && (forall j :: 0 <= j < |actions| ==> actions[j].index == n) ==>
        Apply(s, actions) == s[n := s[n].(docs := s[n].docs + Sources(actions))] by {
        forall n | n in s && (forall j :: 0 <= j < |actions| ==> actions[j].index == n)
          ensures Apply(s, actions) == s[n := s[n].(docs := s[n].docs + Sources(actions))] {
          ApplyToOneIndex(s, n, actions);
        }
      }
      Step(Apply(s, actions), Done)
    else Step(s, Raised(BulkFailed))
  }

  /** The documents the actions carry, in order. */
  function Sources(actions: seq<Action>): (r: seq<Document>)
    ensures |r| == |actions|
    ensures forall j :: 0 <= j < |actions| ==> r[j] == actions[j].source
  {
    if actions == [] then [] else Sources(actions[..|actions| - 1]) + [actions[|actions| - 1].source]
  }

  /** Loading actions that all target one index appends their documents to it,
      in order, and touches no other index. */
  lemma {:induction false} ApplyToOneIndex(s: Store, name: string, actions: seq<Action>)
    requires name in s
    requires forall j :: 0 <= j < |actions| ==> actions[j].index == name
    ensures Targets(s, actions)
    ensures Apply(s, actions) == s[name := s[name].(docs := s[name].docs + Sources(actions))]
  {
    if actions != [] {
      var init := actions[..|actions| - 1];
      var last := actions[|actions| - 1];
      ApplyToOneIndex(s, name, init);
      assert s[name].docs + Sources(actions) == (s[name].docs + Sources(init)) + [last.source];
      var mid := s[name := s[name].(docs := s[name].docs + Sources(init))];
      assert Apply(s, actions) == mid[name := mid[name].(docs := mid[name].docs + [last.source])];
      assert mid[name := mid[name].(docs := mid[name].docs + [last.source])]
          == s[name := s[name].(docs := s[name].docs + Sources(actions))];
    } else {
      assert s[name].docs + Sources(actions) == s[name].docs;
      assert s[name := s[name]] == s;
    }
  }
}
