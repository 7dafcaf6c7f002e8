/** The capability gate: which capability an agent may use, and which use needs the user's approval. */
module CapabilityGate {
  import opened Options

  /** The place of the first ':'. */
  function Colon(cap: string): (i: nat)
    ensures i <= |cap| && (i < |cap| ==> cap[i] == ':') && forall k :: 0 <= k < i ==> cap[k] != ':'
  {
    if cap == "" || cap[0] == ':' then 0 else 1 + Colon(cap[1..])
  }

  function Class(cap: string): string
  {
    cap[..Colon(cap)]
  }

  function Sub(cap: string): string
  {
    if Colon(cap) < |cap| then cap[Colon(cap) + 1..] else ""
  }

  predicate Matches(grant: string, request: string)
  {
    grant == request || (Class(grant) == Class(request) && Sub(grant) == "any")
  }

  predicate IsSensitive(cap: string)
  {
    cap == "payment:execute_unrestricted" || cap == "secrets:read_vault" || Class(cap) == "account"
  }

  function FindGrant(granted: seq<string>, request: string): Option<string>
  {
    if granted == [] then None
    else if Matches(granted[0], request) then Some(granted[0])
    else FindGrant(granted[1..], request)
  }

  method FindGrantInOrder(granted: seq<string>, request: string) returns (r: Option<string>)
    ensures r == FindGrant(granted, request)
  {
    for i := 0 to |granted|
      invariant FindGrant(granted, request) == FindGrant(granted[i..], request)
    {
      if granted[i] == request {
        return Some(granted[i]);
      }
      if Class(granted[i]) == Class(request) && Sub(granted[i]) == "any" {
        return Some(granted[i]);
      }
    }
    return None;
  }

  datatype Gate = Gate(allowed: bool, requiresApproval: bool)

  /** `checkCapability`, but for the text of its reason; the autonomy of the task plays no part in it. Its test
      for a missing grant takes an empty one for missing too. */
  function CheckCapability(granted: seq<string>, request: string): Gate
  {
    match FindGrant(granted, request)
    case None => Gate(false, false)
    case Some(grant) =>
      if grant == "" then Gate(false, false) else Gate(true, IsSensitive(grant) || IsSensitive(request))
  }

  /** `authorize` of the runtime: an unknown role may do nothing. */
  function Authorize(agents: map<string, seq<string>>, role: string, capability: string): Gate
  {
    if role in agents then CheckCapability(agents[role], capability) else Gate(false, false)
  }

  lemma {:induction false} GrantFound(granted: seq<string>, request: string)
    ensures FindGrant(granted, request).Some? <==> exists grant :: grant in granted && Matches(grant, request)
    ensures FindGrant(granted, request).Some? ==>
              FindGrant(granted, request).value in granted && Matches(FindGrant(granted, request).value, request)
  {
    if granted != [] {
      GrantFound(granted[1..], request);
      assert granted == [granted[0]] + granted[1..];
    }
  }

  lemma PaymentParts()
    ensures Class("payment:execute_unrestricted") == "payment" && Sub("payment:execute_unrestricted") != "any"
  {
    hide Colon, Class, Sub;
    SplitAt("payment", "execute_unrestricted");
    assert "payment" + ":" + "execute_unrestricted" == "payment:execute_unrestricted";
  }

  lemma SecretsParts()
    ensures Class("secrets:read_vault") == "secrets" && Sub("secrets:read_vault") != "any"
  {
    hide Colon, Class, Sub;
    SplitAt("secrets", "read_vault");
    assert "secrets" + ":" + "read_vault" == "secrets:read_vault";
  }

  lemma SplitAt(class_: string, sub: string)
    requires forall k :: 0 <= k < |class_| ==> class_[k] != ':'
    ensures Class(class_ + ":" + sub) == class_ && Sub(class_ + ":" + sub) == sub
  {
    hide Colon;
    ColonAt(class_ + ":" + sub, |class_|);
  }

  lemma ColonAt(cap: string, i: nat)
    requires i < |cap| && cap[i] == ':' && forall k :: 0 <= k < i ==> cap[k] != ':'
    ensures Colon(cap) == i
  {
  }

  /** A grant that matches is no more sensitive than the request: a wildcard is sensitive only through its
      class, which the request shares. So looking at the grant adds nothing. */
  lemma GrantAddsNoSensitivity(grant: string, request: string)
    requires Matches(grant, request) && IsSensitive(grant)
    ensures IsSensitive(request)
  {
    PaymentParts();
    SecretsParts();
    hide Colon, Class, Sub;
  }

  // ---- what the gate is there for ---------------------------------------------------------------

  /** The capability is `class_` itself or one of its subclasses. */
  predicate OfClass(cap: string, class_: string)
  {
    && (forall k :: 0 <= k < |class_| ==> class_[k] != ':')
    && (cap == class_ || (|cap| > |class_| && cap[..|class_|] == class_ && cap[|class_|] == ':'))
  }

  /** The grant is the capability, or the wildcard of its class. */
  ghost predicate Covers(grant: string, request: string)
  {
    grant == request || exists class_ :: OfClass(request, class_) && grant == class_ + ":any"
  }

  ghost predicate Granted(granted: seq<string>, request: string)
  {
    exists grant :: grant in granted && Covers(grant, request)
  }

  /** Two capabilities and one class are for the user to decide on, at every use. */
  predicate NeedsApproval(cap: string)
  {
    cap == "payment:execute_unrestricted" || cap == "secrets:read_vault" || OfClass(cap, "account")
  }

  lemma ClassMeans(cap: string, class_: string)
    ensures Class(cap) == class_ <==> OfClass(cap, class_)
  {
    if OfClass(cap, class_) && |cap| > |class_| {
      ColonAt(cap, |class_|);
    } else if cap == class_ && OfClass(cap, class_) {
      assert Colon(cap) == |cap|;
    }
  }

  lemma SensitiveMeans(cap: string)
    ensures IsSensitive(cap) <==> NeedsApproval(cap)
  {
    ClassMeans(cap, "account");
    hide Class, OfClass;
  }

  lemma MatchesMeans(grant: string, request: string)
    ensures Matches(grant, request) <==> Covers(grant, request)
  {
    var class_ := Class(request);
    ClassMeans(request, class_);
    if Class(grant) == class_ && Sub(grant) == "any" {
      assert grant == class_ + ":any";
    }
    hide Colon;
    if c :| OfClass(request, c) && grant == c + ":any" {
      ClassMeans(request, c);
      hide Class, Sub;
      SplitAt(c, "any");
      assert c + ":" + "any" == c + ":any";
    }
  }

  /** An empty grant matches only the empty request. */
  lemma EmptyGrant(request: string)
    ensures Matches("", request) <==> request == ""
  {
  }

  /** Allowed exactly if some grant matches, and then subject to approval exactly if the request is sensitive;
      only for the empty request it matters that the grant met first is not empty itself. */
  lemma GateMeans(granted: seq<string>, request: string)
    ensures CheckCapability(granted, request).allowed <==>
              Granted(granted, request) && (request == "" ==> FindGrant(granted, request) != Some(""))
    ensures CheckCapability(granted, request).requiresApproval <==>
              CheckCapability(granted, request).allowed && NeedsApproval(request)
  {
    GrantFound(granted, request);
    SensitiveMeans(request);
    forall grant
      ensures Matches(grant, request) <==> Covers(grant, request)
    {
      MatchesMeans(grant, request);
    }
    hide Matches, Covers, IsSensitive, NeedsApproval;
    EmptyGrant(request);
    if FindGrant(granted, request).Some? && IsSensitive(FindGrant(granted, request).value) {
      GrantAddsNoSensitivity(FindGrant(granted, request).value, request);
    }
  }

  /** The same grants, in any order and any number. */
  predicate SameGrants(granted: seq<string>, other: seq<string>)
  {
    (forall grant :: grant in granted ==> grant in other) && (forall grant :: grant in other ==> grant in granted)
  }

  ghost predicate OrderDoesNotMatter(request: string)
  {
    forall granted, other :: SameGrants(granted, other) ==>
        CheckCapability(granted, request) == CheckCapability(other, request)
  }

  /** The answer does not depend on which of several matching grants is met first, if and only if the request is
      not empty: "" and ":any" both match "", and the gate allows it only if ":any" comes first. */
  lemma OrderMattersOnlyForEmpty(request: string)
    ensures OrderDoesNotMatter(request) <==> request != ""
  {
    if request == "" {
      var granted, other := ["", ":any"], [":any", ""];
      assert granted[0] == other[1] && granted[1] == other[0];
      assert SameGrants(granted, other);
      assert FindGrant(granted, "") == Some("");
      WildcardMatches();
      assert FindGrant(other, "") == Some(":any");
      assert CheckCapability(granted, "") != CheckCapability(other, "");
    } else {
      forall granted, other | SameGrants(granted, other)
        ensures CheckCapability(granted, request) == CheckCapability(other, request)
      {
        GateMeans(granted, request);
        GateMeans(other, request);
        SameGranted(granted, other, request);
        hide Granted, CheckCapability;
        GateHasTwoAnswers(granted, request);
        GateHasTwoAnswers(other, request);
      }
    }
  }

  lemma WildcardMatches()
    ensures Matches(":any", "")
  {
    assert ":any"[..0] == "" && ":any"[1..] == "any";
  }

  lemma SameGranted(granted: seq<string>, other: seq<string>, request: string)
    requires SameGrants(granted, other)
    ensures Granted(granted, request) <==> Granted(other, request)
  {
    hide Covers;
  }

  lemma GateHasTwoAnswers(granted: seq<string>, request: string)
    ensures !CheckCapability(granted, request).allowed ==> !CheckCapability(granted, request).requiresApproval
  {
  }
}
