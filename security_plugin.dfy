/**
 * The security plugin's registration of security scopes: every scanned class
 * that is a `Scope` is registered under its `@SecurityScope` name, or its
 * simple name, provided it has a `(String)` constructor and the name is not
 * taken. The security providers are then initialised in order.
 *
 * Scanned classes are given as what reflection says about them; a provider's
 * own initialisation is not modelled, only that and when it happens.
 */
module SecurityPluginModel {
  import opened Wrappers

  /** A scanned candidate class, as reflection sees it. */
  datatype ScopeCandidate = ScopeCandidate(
    className: string,
    simpleName: string,
    isScope: bool,                    // `Scope` is assignable from it
    securityScope: Option<string>,    // the value of its `@SecurityScope`, if annotated
    hasStringConstructor: bool)

  datatype ScopeError =
    | MissingAdequateScopeConstructor(scopeName: string)
    | DuplicateScopeName(scopeName: string)

  /** The name a scope is registered under. */
  function ScopeName(c: ScopeCandidate): (name: string)
    ensures c.securityScope.Some? ==> name == c.securityScope.value
    ensures c.securityScope.None? ==> name == c.simpleName
  {
    match c.securityScope
    case Some(value) => value
    case None => c.simpleName
  }

  /** What one candidate's turn does. */
  datatype Step = Skip | Put(name: string, className: string) | Fail(error: ScopeError)

  /**
   * A non-scope is skipped; a scope without a `(String)` constructor fails,
   * before any look at its name; a taken name fails; otherwise it is put.
   */
  function ScopeStep(scopes: map<string, string>, c: ScopeCandidate): (r: Step)
    ensures r.Skip? <==> !c.isScope
    ensures r.Put? <==> c.isScope && c.hasStringConstructor && ScopeName(c) !in scopes
    ensures r.Put? ==> r == Put(ScopeName(c), c.className)
    ensures r.Fail? && r.error.MissingAdequateScopeConstructor? <==> c.isScope && !c.hasStringConstructor
    ensures r.Fail? ==> r.error.scopeName == ScopeName(c)
  {
    if !c.isScope then Skip
    else
      var name := ScopeName(c);
      if !c.hasStringConstructor then Fail(MissingAdequateScopeConstructor(name))
      else if name in scopes then Fail(DuplicateScopeName(name))
      else Put(name, c.className)
  }

  datatype Registration = Registration(scopes: map<string, string>, failure: Option<ScopeError>)

  /** The candidates in turn, stopping at the first failure. */
  function RegisterAll(scopes: map<string, string>, candidates: seq<ScopeCandidate>): Registration
  {
    if candidates == [] then Registration(scopes, None)
    else
      var prev := RegisterAll(scopes, candidates[..|candidates| - 1]);
      if prev.failure.Some? then prev
      else match ScopeStep(prev.scopes, candidates[|candidates| - 1])
        case Skip => prev
        case Put(name, className) => Registration(prev.scopes[name := className], None)
        case Fail(e) => Registration(prev.scopes, Some(e))
  }

  /** The registration of the scanned scope candidates; none when the scan found no collection. */
  function RegisterScopes(scopes: map<string, string>, candidates: Option<seq<ScopeCandidate>>): (r: Registration)
    ensures candidates.None? ==> r == Registration(scopes, None)
  {
    match candidates
    case None => Registration(scopes, None)
    case Some(list) => RegisterAll(scopes, list)
  }

  /** Registration never overwrites: every name present before keeps its class. */
  lemma {:induction false} NoOverwrite(scopes: map<string, string>, candidates: seq<ScopeCandidate>)
    ensures var r := RegisterAll(scopes, candidates).scopes;
      forall name :: name in scopes ==> name in r && r[name] == scopes[name]
  {
    if candidates != [] {
      NoOverwrite(scopes, candidates[..|candidates| - 1]);
    }
  }

  /** Every name registered comes from a scope candidate with a `(String)` constructor, with its class. */
  lemma {:induction false} OnlyScopesAdded(scopes: map<string, string>, candidates: seq<ScopeCandidate>)
    ensures var r := RegisterAll(scopes, candidates).scopes;
      forall name :: name in r ==>
        (name in scopes && r[name] == scopes[name])
        || exists i :: 0 <= i < |candidates| && candidates[i].isScope && candidates[i].hasStringConstructor
                       && ScopeName(candidates[i]) == name && candidates[i].className == r[name]
  {
    if candidates != [] {
      var init := candidates[..|candidates| - 1];
      OnlyScopesAdded(scopes, init);
      assert forall i :: 0 <= i < |init| ==> init[i] == candidates[i];
    }
  }

  /**
   * After a successful registration every scope candidate is found under its
   * name with its own class: no two of them share a name.
   */
  lemma {:induction false} AllScopesRegistered(scopes: map<string, string>, candidates: seq<ScopeCandidate>)
    requires RegisterAll(scopes, candidates).failure.None?
    ensures var r := RegisterAll(scopes, candidates).scopes;
      forall i :: 0 <= i < |candidates| && candidates[i].isScope ==>
        ScopeName(candidates[i]) in r && r[ScopeName(candidates[i])] == candidates[i].className
  {
    if candidates != [] {
      var n := |candidates|;
      var init := candidates[..n - 1];
      var prev := RegisterAll(scopes, init);
      AllScopesRegistered(scopes, init);
      assert forall i :: 0 <= i < |init| ==> init[i] == candidates[i];
      NoOverwrite(prev.scopes, [candidates[n - 1]]);
      assert [candidates[n - 1]][..0] == [];
    }
  }

  /** A scope lacking the constructor fails on that, even when its name is also taken. */
  lemma ConstructorCheckedFirst(scopes: map<string, string>, c: ScopeCandidate)
    requires c.isScope && !c.hasStringConstructor && ScopeName(c) in scopes
    ensures ScopeStep(scopes, c) == Fail(MissingAdequateScopeConstructor(ScopeName(c)))
  {
  }

  class SecurityPlugin {
    const securityProviders: seq<string>
    var scopeClasses: map<string, string>
    var initializedProviders: seq<string>   // providers whose `init` has run, in order
    var elDisabled: bool

    constructor(securityProviders: seq<string>)
      ensures this.securityProviders == securityProviders
      ensures scopeClasses == map[] && initializedProviders == [] && !elDisabled
    {
      this.securityProviders := securityProviders;
      scopeClasses := map[];
      initializedProviders := [];
      elDisabled := false;
    }

    /** Registers the scope candidates in turn, stopping at the first failure. */
    method RegisterScopeClasses(list: seq<ScopeCandidate>) returns (failure: Option<ScopeError>)
      modifies this
      ensures Registration(scopeClasses, failure) == RegisterAll(old(scopeClasses), list)
      ensures initializedProviders == old(initializedProviders) && elDisabled == old(elDisabled)
    {
      var i := 0;
      while i < |list|
        invariant 0 <= i <= |list|
        invariant initializedProviders == old(initializedProviders) && elDisabled == old(elDisabled)
        invariant RegisterAll(old(scopeClasses), list[..i]) == Registration(scopeClasses, None)
      {
        var c := list[i];
        assert list[..i + 1][..i] == list[..i];
        if c.isScope {
          var name := ScopeName(c);
          if !c.hasStringConstructor {
            FailureStays(old(scopeClasses), list, i + 1);
            return Some(MissingAdequateScopeConstructor(name));
          }
          if name in scopeClasses {
            FailureStays(old(scopeClasses), list, i + 1);
            return Some(DuplicateScopeName(name));
          }
          scopeClasses := scopeClasses[name := c.className];
        }
        i := i + 1;
      }
      assert list[..i] == list;
      return None;
    }

    /** Initialises the security providers in list order. */
    method InitializeProviders()
      modifies this
      ensures initializedProviders == old(initializedProviders) + securityProviders
      ensures scopeClasses == old(scopeClasses) && elDisabled == old(elDisabled)
    {
      var j := 0;
      while j < |securityProviders|
        invariant 0 <= j <= |securityProviders|
        invariant initializedProviders == old(initializedProviders) + securityProviders[..j]
        invariant scopeClasses == old(scopeClasses) && elDisabled == old(elDisabled)
      {
        initializedProviders := initializedProviders + [securityProviders[j]];
        j := j + 1;
      }
      assert securityProviders[..j] == securityProviders;
    }

    /** Registers the scopes, then, only if that succeeded, initialises the providers in order. */
    method Init(candidates: Option<seq<ScopeCandidate>>, elDisabled: bool) returns (failure: Option<ScopeError>)
      modifies this
      ensures this.elDisabled == elDisabled
      ensures Registration(scopeClasses, failure) == RegisterScopes(old(scopeClasses), candidates)
      ensures failure.None? ==> initializedProviders == old(initializedProviders) + securityProviders
      ensures failure.Some? ==> initializedProviders == old(initializedProviders)
    {
      this.elDisabled := elDisabled;
      if candidates.Some? {
        failure := RegisterScopeClasses(candidates.value);
        if failure.Some? {
          return;
        }
      }
      InitializeProviders();
      return None;
    }
  }

  /** Once a prefix has failed, the later candidates change nothing. */
  lemma {:induction false} FailureStays(scopes: map<string, string>, candidates: seq<ScopeCandidate>, i: nat)
    requires i <= |candidates|
    requires RegisterAll(scopes, candidates[..i]).failure.Some?
    ensures RegisterAll(scopes, candidates) == RegisterAll(scopes, candidates[..i])
    decreases |candidates| - i
  {
    if i < |candidates| {
      assert candidates[..i + 1][..i] == candidates[..i];
      FailureStays(scopes, candidates, i + 1);
    } else {
      assert candidates[..i] == candidates;
    }
  }
}
