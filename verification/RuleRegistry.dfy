/** Which sink a rule's records go to: a forward index and the sets of rules per sink. */
module RuleRegistry {
  import opened Common

  type SinkId = string
  type RuleKey = string

  /** A text as its UTF-8 bytes, which is what its length counts. */
  type Text = seq<Byte>

  /** One update: a sink claims a rule with the text that matched it. */
  datatype Claim = Claim(sink: SinkId, rule: RuleKey, matcher: Text)
  datatype Owner = Owner(sink: SinkId, matcher: Text)

  type Sets = map<SinkId, set<RuleKey>>
  type Forward = map<RuleKey, Owner>

  function RulesOf(sets: Sets, sink: SinkId): set<RuleKey> { if sink in sets then sets[sink] else {} }

  function Added(sets: Sets, sink: SinkId, rule: RuleKey): Sets { sets[sink := RulesOf(sets, sink) + {rule}] }

  function Removed(sets: Sets, sink: SinkId, rule: RuleKey): Sets {
    if sink in sets then sets[sink := sets[sink] - {rule}] else sets
  }

  /** Rules per sink. */
  class SinkRuleMapping {
    var sets: Sets

    constructor ()
      ensures sets == map[]
    {
      sets := map[];
    }

    method Update(sink: SinkId, rule: RuleKey)
      modifies this
      ensures sets == Added(old(sets), sink, rule)
    {
      assert {} + {rule} == {rule};
      if sink in sets {
        sets := sets[sink := sets[sink] + {rule}];
      } else {
        sets := sets[sink := {rule}];
      }
    }

    method Remove(sink: SinkId, rule: RuleKey)
      modifies this
      ensures sets == Removed(old(sets), sink, rule)
    {
      if sink in sets {
        sets := sets[sink := sets[sink] - {rule}];
      }
    }
  }

  /** The owner of a rule after a history of updates: a longer matcher takes the rule over. */
  function OwnerOf(h: seq<Claim>, rule: RuleKey): Option<Owner> {
    if h == [] then None
    else
      var u, before := h[|h| - 1], OwnerOf(h[..|h| - 1], rule);
      if u.rule != rule then before
      else if before.None? || |u.matcher| > |before.value.matcher| then Some(Owner(u.sink, u.matcher))
      else before
  }

  /** Update `i` is the earliest one for the rule with the longest matcher. */
  predicate Decides(h: seq<Claim>, rule: RuleKey, i: int) {
    && 0 <= i < |h| && h[i].rule == rule
    && forall j :: 0 <= j < |h| && h[j].rule == rule ==>
         if j < i then |h[j].matcher| < |h[i].matcher| else |h[j].matcher| <= |h[i].matcher|
  }

  /** A rule is owned exactly if it was ever updated, and the deciding update says by whom. */
  lemma OwnerIff(h: seq<Claim>, rule: RuleKey, o: Owner)
    ensures OwnerOf(h, rule) == Some(o) <==> exists i :: Decides(h, rule, i) && Owner(h[i].sink, h[i].matcher) == o
    ensures OwnerOf(h, rule) == None <==> forall i :: 0 <= i < |h| ==> h[i].rule != rule
  {
    var i := Decider(h, rule);
    if i != -1 {
      assert forall k :: Decides(h, rule, k) ==> k == i;
    }
  }

  /** The deciding update, or -1 when there is none. */
  lemma {:induction false} Decider(h: seq<Claim>, rule: RuleKey) returns (i: int)
    ensures i == -1 <==> forall k :: 0 <= k < |h| ==> h[k].rule != rule
    ensures i == -1 ==> OwnerOf(h, rule) == None
    ensures i != -1 ==> Decides(h, rule, i) && OwnerOf(h, rule) == Some(Owner(h[i].sink, h[i].matcher))
  {
    if h == [] {
      return -1;
    }
    var n := |h| - 1;
    var front := h[..n];
    assert forall k :: 0 <= k < n ==> front[k] == h[k];
    i := Decider(front, rule);
    if h[n].rule == rule && (i == -1 || |h[n].matcher| > |h[i].matcher|) {
      i := n;
    }
  }

  /** The forward index holds the owners the history gives. */
  ghost predicate Tells(forward: Forward, h: seq<Claim>) {
    forall r :: OwnerOf(h, r) == if r in forward then Some(forward[r]) else None
  }

  /** A rule is in a sink's set exactly if the forward index maps it there. */
  ghost predicate Agrees(sets: Sets, forward: Forward) {
    forall s, r :: r in RulesOf(sets, s) <==> r in forward && forward[r].sink == s
  }

  lemma TellsNext(forward: Forward, h: seq<Claim>, u: Claim)
    requires Tells(forward, h)
    ensures Tells(if u.rule in forward && |u.matcher| <= |forward[u.rule].matcher| then forward
                  else forward[u.rule := Owner(u.sink, u.matcher)], h + [u])
  {
    assert (h + [u])[..|h|] == h;
  }

  lemma AddAgrees(sets: Sets, forward: Forward, u: Claim)
    requires Agrees(sets, forward) && u.rule !in forward
    ensures Agrees(Added(sets, u.sink, u.rule), forward[u.rule := Owner(u.sink, u.matcher)])
  {
    var t := Added(sets, u.sink, u.rule);
    assert forall s :: RulesOf(t, s) == if s == u.sink then RulesOf(sets, s) + {u.rule} else RulesOf(sets, s);
  }

  lemma RemoveAgrees(sets: Sets, forward: Forward, rule: RuleKey)
    requires Agrees(sets, forward) && rule in forward
    ensures Agrees(Removed(sets, forward[rule].sink, rule), forward - {rule})
  {
    var sink := forward[rule].sink;
    var t := Removed(sets, sink, rule);
    assert forall s :: RulesOf(t, s) == if s == sink then RulesOf(sets, s) - {rule} else RulesOf(sets, s);
  }

  class SinkRuleRegistry {
    var ruleSink: Forward
    const relation: SinkRuleMapping
    ghost var history: seq<Claim>

    /** Both structures say what the history says. */
    ghost predicate Valid()
      reads this, relation
    {
      Tells(ruleSink, history) && Agrees(relation.sets, ruleSink)
    }

    constructor ()
      ensures Valid() && history == [] && fresh(relation)
    {
      ruleSink := map[];
      relation := new SinkRuleMapping();
      history := [];
    }

    method Update(sink: SinkId, rule: RuleKey, matcher: Text)
      requires Valid()
      modifies this, relation
      ensures Valid() && history == old(history) + [Claim(sink, rule, matcher)]
    {
      ghost var u := Claim(sink, rule, matcher);
      TellsNext(ruleSink, history, u);
      if rule in ruleSink {
        var owner := ruleSink[rule];
        if |matcher| > |owner.matcher| {
          RemoveAgrees(relation.sets, ruleSink, rule);
          relation.Remove(owner.sink, rule);
          AddAgrees(relation.sets, ruleSink - {rule}, u);
          relation.Update(sink, rule);
          ruleSink := ruleSink - {rule};
          ruleSink := ruleSink[rule := Owner(sink, matcher)];
          assert ruleSink == old(ruleSink)[rule := Owner(sink, matcher)];
        }
      } else {
        AddAgrees(relation.sets, ruleSink, u);
        ruleSink := ruleSink[rule := Owner(sink, matcher)];
        relation.Update(sink, rule);
      }
      history := history + [u];
    }
  }

  /** A rule is in the set of one sink at most: the one of the deciding update. */
  lemma OneSink(sets: Sets, forward: Forward, h: seq<Claim>, r: RuleKey, s: SinkId)
    requires Tells(forward, h) && Agrees(sets, forward)
    ensures r in RulesOf(sets, s) <==> exists i :: Decides(h, r, i) && h[i].sink == s
  {
    var i := Decider(h, r);
    if i != -1 {
      assert forall k :: Decides(h, r, k) ==> k == i;
    }
  }
}
