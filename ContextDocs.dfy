/** The knowledge-base tool of the Python back end: retrieve the nodes most
    similar to a question, keep the contents of those the caller may view
    according to the fine-grained authorization store, and answer with them
    joined, or with a fixed message when nothing may be shown.

    Retrieval is not part of this model: it is passed in as a function.
    The authorization store's answers are a function held by the
    authorization manager, which records the questions put to it. */
module ContextDocs {
  import opened Prelude

  /** A retrieved node: its metadata dictionary and its text content
      (`get_content(metadata_mode="none")`). */
  datatype Node = Node(metadata: map<string, string>, content: string)

  /** One question put to the authorization manager. */
  datatype RelationCheck = RelationCheck(user: string, docId: string, relation: string)

  /** How many nodes retrieval is asked for. */
  const TopK: nat := 12
  const CanView: string := "can_view"
  const NothingAllowed: string := "I couldn't find any documents you are allowed to view."
  const Separator: string := "\n\n"

  /** `n.metadata.get("document_id")`. */
  function DocumentId(n: Node): Option<string> {
    if "document_id" in n.metadata then Some(n.metadata["document_id"]) else None
  }

  /** The node has a document id and the caller may view that document. */
  predicate Admitted(n: Node, user: string, checkRelation: (string, string, string) -> bool) {
    Truthy(DocumentId(n)) && checkRelation(user, DocumentId(n).value, CanView)
  }

  /** The contents kept by the loop over `nodes`, in retrieval order. */
  function Allowed(nodes: seq<Node>, user: string, checkRelation: (string, string, string) -> bool): seq<string>
    decreases |nodes|
  {
    if |nodes| == 0 then []
    else
      var last := nodes[|nodes| - 1];
      Allowed(nodes[..|nodes| - 1], user, checkRelation)
        + (if Admitted(last, user, checkRelation) then [last.content] else [])
  }

  /** The relation checks the loop over `nodes` asks for, in order. */
  function Checks(nodes: seq<Node>, user: string): seq<RelationCheck>
    decreases |nodes|
  {
    if |nodes| == 0 then []
    else
      var last := nodes[|nodes| - 1];
      Checks(nodes[..|nodes| - 1], user)
        + (if Truthy(DocumentId(last)) then [RelationCheck(user, DocumentId(last).value, CanView)] else [])
  }

  /** The tool's reply for the allowed contents. */
  function Answer(allowed: seq<string>): string {
    if |allowed| == 0 then NothingAllowed else Join(Separator, allowed)
  }

  /** The authorization manager: its `check_relation` answers according
      to the authorization store, here the function `canView`, and every
      question put to it is recorded in `log`. */
  class AuthorizationManager {
    const canView: (string, string, string) -> bool
    ghost var log: seq<RelationCheck>

    constructor (canView: (string, string, string) -> bool)
      ensures this.canView == canView && log == []
    {
      this.canView := canView;
      log := [];
    }

    /** `check_relation(user=…, doc_id=…, relation=…)`. */
    method CheckRelation(user: string, docId: string, relation: string) returns (r: bool)
      modifies this
      ensures r == canView(user, docId, relation)
      ensures log == old(log) + [RelationCheck(user, docId, relation)]
    {
      r := canView(user, docId, relation);
      log := log + [RelationCheck(user, docId, relation)];
    }
  }

  /** `get_context_docs_li_fn`: the answer is built from the allowed
      contents, and the questions put to the authorization manager are
      exactly `Checks` of the retrieved nodes, in order. */
  method GetContextDocs(question: string, userEmail: string,
                        retrieveNodes: (string, nat) -> seq<Node>,
                        am: AuthorizationManager)
    returns (answer: string)
    modifies am
    ensures am.log == old(am.log) + Checks(retrieveNodes(question, TopK), userEmail)
    ensures answer == Answer(Allowed(retrieveNodes(question, TopK), userEmail, am.canView))
  {
    var nodes := retrieveNodes(question, TopK);
    var allowed: seq<string> := [];
    for i := 0 to |nodes|
      invariant allowed == Allowed(nodes[..i], userEmail, am.canView)
      invariant am.log == old(am.log) + Checks(nodes[..i], userEmail)
    {
      var n := nodes[i];
      assert nodes[..i + 1][..i] == nodes[..i];
      var docId := DocumentId(n);
      if !Truthy(docId) {
        continue;
      }
      var canView := am.CheckRelation(userEmail, docId.value, CanView);
      if canView {
        allowed := allowed + [n.content];
      }
    }
    assert nodes[..|nodes|] == nodes;
    if |allowed| == 0 {
      answer := NothingAllowed;
      return;
    }
    answer := Join(Separator, allowed);
  }

  // ----- properties of the filter -----

  /** The loop treats each node on its own, in retrieval order: the result
      for `a + b` is the result for `a` followed by the result for `b`. */
  lemma {:induction false} AllowedAppend(a: seq<Node>, b: seq<Node>, user: string,
                                         checkRelation: (string, string, string) -> bool)
    ensures Allowed(a + b, user, checkRelation) == Allowed(a, user, checkRelation) + Allowed(b, user, checkRelation)
    ensures Checks(a + b, user) == Checks(a, user) + Checks(b, user)
    decreases |b|
  {
    if |b| == 0 {
      assert a + b == a;
    } else {
      assert (a + b)[..|a + b| - 1] == a + b[..|b| - 1];
      AllowedAppend(a, b[..|b| - 1], user, checkRelation);
    }
  }

  /** A single node contributes its content exactly when it has a document
      id and `can_view` holds; it is checked exactly when it has an id. */
  lemma AllowedSingle(n: Node, user: string, checkRelation: (string, string, string) -> bool)
    ensures Allowed([n], user, checkRelation)
            == if Truthy(DocumentId(n)) && checkRelation(user, DocumentId(n).value, CanView) then [n.content] else []
    ensures Checks([n], user)
            == if Truthy(DocumentId(n)) then [RelationCheck(user, DocumentId(n).value, CanView)] else []
  {
  }

  /** A node without a document id neither contributes nor is checked. */
  lemma NoDocumentIdIgnored(a: seq<Node>, n: Node, b: seq<Node>, user: string,
                            checkRelation: (string, string, string) -> bool)
    requires !Truthy(DocumentId(n))
    ensures Allowed(a + [n] + b, user, checkRelation) == Allowed(a + b, user, checkRelation)
    ensures Checks(a + [n] + b, user) == Checks(a + b, user)
  {
    AllowedAppend(a, [n], user, checkRelation);
    AllowedAppend(a + [n], b, user, checkRelation);
    AllowedAppend(a, b, user, checkRelation);
    AllowedSingle(n, user, checkRelation);
  }

  /** Every check is a `can_view` question about the caller and a present
      document id of some retrieved node. */
  lemma {:induction false} ChecksAreCanView(nodes: seq<Node>, user: string, k: nat)
    requires k < |Checks(nodes, user)|
    ensures Checks(nodes, user)[k].user == user
    ensures Checks(nodes, user)[k].relation == "can_view"
    ensures Checks(nodes, user)[k].docId != ""
    ensures exists j :: 0 <= j < |nodes| && DocumentId(nodes[j]) == Some(Checks(nodes, user)[k].docId)
    decreases |nodes|
  {
    var init := nodes[..|nodes| - 1];
    var last := nodes[|nodes| - 1];
    if k < |Checks(init, user)| {
      ChecksAreCanView(init, user, k);
      var j :| 0 <= j < |init| && DocumentId(init[j]) == Some(Checks(init, user)[k].docId);
      assert nodes[j] == init[j];
    } else {
      assert DocumentId(nodes[|nodes| - 1]) == Some(Checks(nodes, user)[k].docId);
    }
  }

  /** A node's content is kept if and only if it has a document id and the
      caller may view it: the admitted contents are in the result, and
      everything in the result comes from an admitted node. */
  lemma {:induction false} AllowedExactly(nodes: seq<Node>, user: string,
                                          checkRelation: (string, string, string) -> bool)
    ensures forall k :: 0 <= k < |nodes| && Admitted(nodes[k], user, checkRelation) ==>
                          nodes[k].content in Allowed(nodes, user, checkRelation)
    ensures forall s :: s in Allowed(nodes, user, checkRelation) ==>
                          exists k :: 0 <= k < |nodes| && Admitted(nodes[k], user, checkRelation) && nodes[k].content == s
    decreases |nodes|
  {
    if |nodes| > 0 {
      var init := nodes[..|nodes| - 1];
      AllowedExactly(init, user, checkRelation);
      forall s | s in Allowed(nodes, user, checkRelation)
        ensures exists k :: 0 <= k < |nodes| && Admitted(nodes[k], user, checkRelation) && nodes[k].content == s
      {
        if s in Allowed(init, user, checkRelation) {
          var k :| 0 <= k < |init| && Admitted(init[k], user, checkRelation) && init[k].content == s;
          assert nodes[k] == init[k];
        } else {
          assert Admitted(nodes[|nodes| - 1], user, checkRelation) && nodes[|nodes| - 1].content == s;
        }
      }
      forall k | 0 <= k < |nodes| && Admitted(nodes[k], user, checkRelation)
        ensures nodes[k].content in Allowed(nodes, user, checkRelation)
      {
        if k < |init| {
          assert init[k] == nodes[k];
        }
      }
    }
  }

  /** At most one content per retrieved node, and only for checked nodes. */
  lemma {:induction false} AllowedBounded(nodes: seq<Node>, user: string,
                                          checkRelation: (string, string, string) -> bool)
    ensures |Allowed(nodes, user, checkRelation)| <= |Checks(nodes, user)| <= |nodes|
    decreases |nodes|
  {
    if |nodes| > 0 {
      AllowedBounded(nodes[..|nodes| - 1], user, checkRelation);
    }
  }

  /** With something allowed, every allowed content appears in the answer. */
  lemma AnswerShowsAllowed(allowed: seq<string>, k: nat)
    requires k < |allowed|
    ensures exists i :: OccursAt(Answer(allowed), allowed[k], i)
  {
    JoinHasParts(Separator, allowed, k);
    assert Answer(allowed) == Join(Separator, allowed);
  }
}
