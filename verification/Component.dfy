/**
 A component instance's public keys: the method tables a class blueprint is built
 with, the enumeration of public keys, and the fast probe that replaced scanning it.
 */
module Component {
  import opened Names

  datatype Access = Public | Private | Package | Remote

  /** A member of a scope: a function with its access, or data, which may be null. */
  datatype Member = Function(access: Access) | Data(isNull: bool)

  datatype Entry = Entry(key: string, member: Member)

  /** A scope's own map and, while it is attached, the shared method table of its class. */
  datatype Scope = Scope(own: seq<Entry>, table: Option<seq<Entry>>)

  /** Method names as spelled, in order, and the access of each name up to case. */
  datatype Blueprint = Blueprint(methods: seq<string>, access: map<string, Access>)

  // ---- Building the blueprint ----

  /** `or_insert`: the first function of a name decides; the first of a spelling is kept. */
  function WithMethod(bp: Blueprint, name: string, access: Access): Blueprint {
    Blueprint(if name in bp.methods then bp.methods else bp.methods + [name],
              if Fold(name) in bp.access then bp.access else bp.access[Fold(name) := access])
  }

  function Harvested(bp: Blueprint, es: seq<Entry>): Blueprint
    decreases |es|
  {
    if es == [] then bp
    else match es[0].member
      case Function(a) => Harvested(WithMethod(bp, es[0].key, a), es[1..])
      case Data(_) => Harvested(bp, es[1..])
  }

  function HarvestedScope(bp: Blueprint, s: Scope): Blueprint {
    var bp1 := Harvested(bp, s.own);
    match s.table case Some(es) => Harvested(bp1, es) case None => bp1
  }

  const NO_METHODS := Blueprint([], map[])

  /** The public scope first, then the private one. */
  function FromScopes(marker: Scope, vars: Option<Scope>): Blueprint {
    var bp := HarvestedScope(NO_METHODS, marker);
    match vars case Some(s) => HarvestedScope(bp, s) case None => bp
  }

  method HarvestEntries(bp: Blueprint, es: seq<Entry>) returns (r: Blueprint)
    ensures r == Harvested(bp, es)
  {
    var methods, access := bp.methods, bp.access;
    var i := 0;
    assert es[0..] == es;
    while i < |es|
      invariant 0 <= i <= |es|
      invariant Harvested(Blueprint(methods, access), es[i..]) == Harvested(bp, es)
    {
      assert es[i..][1..] == es[i + 1..];
      if es[i].member.Function? {
        var k := Fold(es[i].key);
        if k !in access {
          access := access[k := es[i].member.access];
        }
        if es[i].key !in methods {
          methods := methods + [es[i].key];
        }
      }
      i := i + 1;
    }
    r := Blueprint(methods, access);
  }

  /** `ClassBlueprint::from_marker`, its method tables. */
  method FromMarker(marker: Scope, vars: Option<Scope>) returns (bp: Blueprint)
    ensures bp == FromScopes(marker, vars)
    ensures BlueprintOk(bp)
  {
    bp := HarvestEntries(NO_METHODS, marker.own);
    if marker.table.Some? {
      bp := HarvestEntries(bp, marker.table.value);
    }
    if vars.Some? {
      bp := HarvestEntries(bp, vars.value.own);
      if vars.value.table.Some? {
        bp := HarvestEntries(bp, vars.value.table.value);
      }
    }
    FromScopesOk(marker, vars);
  }

  /** The access map's keys are the lower-cased method names, and no spelling is repeated. */
  predicate BlueprintOk(bp: Blueprint) {
    && (forall i :: 0 <= i < |bp.methods| ==> Fold(bp.methods[i]) in bp.access)
    && (forall k :: k in bp.access ==> exists i :: 0 <= i < |bp.methods| && Fold(bp.methods[i]) == k)
    && (forall i, j :: 0 <= i < j < |bp.methods| ==> bp.methods[i] != bp.methods[j])
  }

  lemma {:induction false} WithMethodOk(bp: Blueprint, name: string, access: Access)
    requires BlueprintOk(bp)
    ensures BlueprintOk(WithMethod(bp, name, access))
  {
    hide Fold;
    var r := WithMethod(bp, name, access);
    forall k | k in r.access
      ensures exists i :: 0 <= i < |r.methods| && Fold(r.methods[i]) == k
    {
      if k in bp.access {
        var i :| 0 <= i < |bp.methods| && Fold(bp.methods[i]) == k;
        assert r.methods[i] == bp.methods[i];
      } else {
        forall i | 0 <= i < |bp.methods|
          ensures bp.methods[i] != name
        {
          assert Fold(bp.methods[i]) in bp.access;
        }
        assert r.methods[|bp.methods|] == name;
      }
    }
  }

  lemma {:induction false} HarvestedOk(bp: Blueprint, es: seq<Entry>)
    requires BlueprintOk(bp)
    ensures BlueprintOk(Harvested(bp, es))
    decreases |es|
  {
    hide BlueprintOk, WithMethod;
    if es != [] {
      if es[0].member.Function? {
        WithMethodOk(bp, es[0].key, es[0].member.access);
        HarvestedOk(WithMethod(bp, es[0].key, es[0].member.access), es[1..]);
      } else {
        HarvestedOk(bp, es[1..]);
      }
    }
  }

  lemma {:induction false} HarvestedScopeOk(bp: Blueprint, s: Scope)
    requires BlueprintOk(bp)
    ensures BlueprintOk(HarvestedScope(bp, s))
  {
    hide BlueprintOk, Harvested;
    HarvestedOk(bp, s.own);
    if s.table.Some? {
      HarvestedOk(Harvested(bp, s.own), s.table.value);
    }
  }

  lemma {:induction false} FromScopesOk(marker: Scope, vars: Option<Scope>)
    ensures BlueprintOk(FromScopes(marker, vars))
  {
    hide HarvestedScope;
    assert BlueprintOk(NO_METHODS);
    HarvestedScopeOk(NO_METHODS, marker);
    if vars.Some? {
      HarvestedScopeOk(HarvestedScope(NO_METHODS, marker), vars.value);
    }
  }

  /** Among the entries of one list, the first function under a name, whatever its spelling, fixes its access. */
  lemma {:induction false} FirstInList(bp: Blueprint, es: seq<Entry>, i: nat)
    requires i < |es| && es[i].member.Function? && Fold(es[i].key) !in bp.access
    requires forall j :: 0 <= j < i && es[j].member.Function? ==> !SameName(es[j].key, es[i].key)
    ensures Fold(es[i].key) in Harvested(bp, es).access
    ensures Harvested(bp, es).access[Fold(es[i].key)] == es[i].member.access
    decreases |es|
  {
    var rest := es[1..];
    if i == 0 {
      DecidedStays(WithMethod(bp, es[0].key, es[0].member.access), rest, Fold(es[0].key));
    } else {
      assert rest[i - 1] == es[i];
      var bp1 := if es[0].member.Function? then WithMethod(bp, es[0].key, es[0].member.access) else bp;
      forall j | 0 <= j < i - 1 && rest[j].member.Function?
        ensures !SameName(rest[j].key, rest[i - 1].key)
      {
        assert rest[j] == es[j + 1];
      }
      FirstInList(bp1, rest, i - 1);
    }
  }

  lemma {:induction false} DecidedStays(bp: Blueprint, es: seq<Entry>, k: string)
    requires k in bp.access
    ensures k in Harvested(bp, es).access && Harvested(bp, es).access[k] == bp.access[k]
    decreases |es|
  {
    if es != [] {
      DecidedStays(if es[0].member.Function? then WithMethod(bp, es[0].key, es[0].member.access) else bp, es[1..], k);
    }
  }

  lemma {:induction false} HarvestedAppend(bp: Blueprint, a: seq<Entry>, b: seq<Entry>)
    ensures Harvested(bp, a + b) == Harvested(Harvested(bp, a), b)
    decreases |a|
  {
    hide WithMethod;
    if a == [] {
      assert a + b == b;
    } else {
      assert (a + b)[1..] == a[1..] + b && (a + b)[0] == a[0];
      HarvestedAppend(if a[0].member.Function? then WithMethod(bp, a[0].key, a[0].member.access) else bp, a[1..], b);
    }
  }

  function ScopeEntries(s: Scope): seq<Entry> {
    s.own + match s.table case Some(es) => es case None => []
  }

  /** Everything swept, in order: the public scope with its table, then the private one with its. */
  function AllEntries(marker: Scope, vars: Option<Scope>): seq<Entry> {
    ScopeEntries(marker) + match vars case Some(s) => ScopeEntries(s) case None => []
  }

  lemma {:induction false} SweptInOrder(marker: Scope, vars: Option<Scope>)
    ensures FromScopes(marker, vars) == Harvested(NO_METHODS, AllEntries(marker, vars))
  {
    hide Harvested;
    ScopeSwept(NO_METHODS, marker);
    if vars.Some? {
      ScopeSwept(HarvestedScope(NO_METHODS, marker), vars.value);
      HarvestedAppend(NO_METHODS, ScopeEntries(marker), ScopeEntries(vars.value));
    } else {
      assert ScopeEntries(marker) + [] == ScopeEntries(marker);
    }
  }

  lemma {:induction false} ScopeSwept(bp: Blueprint, s: Scope)
    ensures HarvestedScope(bp, s) == Harvested(bp, ScopeEntries(s))
  {
    hide Harvested;
    if s.table.Some? {
      HarvestedAppend(bp, s.own, s.table.value);
    } else {
      assert s.own + [] == s.own;
    }
  }

  /** The first function under a name in that order, whatever its spelling and scope, fixes its access. */
  lemma {:induction false} FirstFunctionDecides(marker: Scope, vars: Option<Scope>, i: nat)
    requires var es := AllEntries(marker, vars);
             && i < |es| && es[i].member.Function?
             && forall j :: 0 <= j < i && es[j].member.Function? ==> !SameName(es[j].key, es[i].key)
    ensures var e := AllEntries(marker, vars)[i];
            Fold(e.key) in FromScopes(marker, vars).access && FromScopes(marker, vars).access[Fold(e.key)] == e.member.access
  {
    hide Harvested, FromScopes, AllEntries;
    SweptInOrder(marker, vars);
    FirstInList(NO_METHODS, AllEntries(marker, vars), i);
  }

  // ---- An instance's public keys ----

  /** The instance's public map, whether its class's method table is still attached, and its class. */
  datatype Instance = Instance(own: seq<Entry>, attached: bool, class_: Blueprint)

  /** A struct map: keys distinct up to case. */
  predicate MapOk(own: seq<Entry>) {
    forall i, j :: 0 <= i < j < |own| ==> !SameName(own[i].key, own[j].key)
  }

  function Lookup(own: seq<Entry>, key: string): (r: Option<Member>)
    ensures r.Some? ==> exists i :: 0 <= i < |own| && SameName(own[i].key, key) && own[i].member == r.value
    ensures r.None? ==> forall i :: 0 <= i < |own| ==> !SameName(own[i].key, key)
  {
    if own == [] then None
    else if SameName(own[0].key, key) then Some(own[0].member)
    else
      var r := Lookup(own[1..], key);
      assert r.Some? ==> exists i :: 0 <= i < |own| && SameName(own[i].key, key) && own[i].member == r.value by {
        if r.Some? {
          var i :| 0 <= i < |own[1..]| && SameName(own[1..][i].key, key) && own[1..][i].member == r.value;
          assert own[i + 1] == own[1..][i];
        }
      }
      r
  }

  predicate IsNull(m: Member) { m.Data? && m.isNull }

  predicate IsPublic(bp: Blueprint, name: string) {
    Fold(name) in bp.access && (bp.access[Fold(name)].Public? || bp.access[Fold(name)].Remote?)
  }

  /** `instance_has_public_key`. */
  predicate HasPublicKey(o: Instance, key: string) {
    match Lookup(o.own, key)
    case Some(m) => !IsNull(m)
    case None => o.attached && IsPublic(o.class_, key)
  }

  function OwnKeys(own: seq<Entry>): (r: seq<string>)
    ensures |r| == |own| && forall i :: 0 <= i < |own| ==> r[i] == own[i].key
  {
    seq(|own|, i requires 0 <= i < |own| => own[i].key)
  }

  /** The public methods no own entry shadows. */
  function Visible(o: Instance, names: seq<string>): seq<string> {
    if names == [] then []
    else
      (if IsPublic(o.class_, names[0]) && Lookup(o.own, names[0]).None? then [names[0]] else [])
      + Visible(o, names[1..])
  }

  function PublicKeys(o: Instance): seq<string> {
    OwnKeys(o.own) + if o.attached then Visible(o, o.class_.methods) else []
  }

  lemma {:induction false} UnfoldVisible(o: Instance, names: seq<string>)
    ensures names == [] ==> Visible(o, names) == []
    ensures names != [] ==>
              Visible(o, names) ==
              (if IsPublic(o.class_, names[0]) && Lookup(o.own, names[0]).None? then [names[0]] else []) + Visible(o, names[1..])
  {
  }

  /** `instance_public_keys`: own entries first, then the methods. */
  method InstancePublicKeys(o: Instance) returns (keys: seq<string>)
    ensures keys == PublicKeys(o)
  {
    hide Visible, Lookup, IsPublic, Fold;
    keys := [];
    var i := 0;
    while i < |o.own|
      invariant 0 <= i <= |o.own| && keys == OwnKeys(o.own)[..i]
    {
      keys := keys + [o.own[i].key];
      i := i + 1;
    }
    assert OwnKeys(o.own)[..i] == OwnKeys(o.own);
    if !o.attached {
      return;
    }
    var names := o.class_.methods;
    ghost var own := keys;
    i := 0;
    assert names[0..] == names && own + [] == own;
    ghost var done: seq<string> := [];
    while i < |names|
      invariant 0 <= i <= |names|
      invariant keys == own + done && Visible(o, names) == done + Visible(o, names[i..])
    {
      assert names[i..][1..] == names[i + 1..];
      UnfoldVisible(o, names[i..]);
      var public := IsPublic(o.class_, names[i]);
      var shadowed := Lookup(o.own, names[i]).Some?;
      if public && !shadowed {
        keys := keys + [names[i]];
        done := done + [names[i]];
      }
      i := i + 1;
    }
    UnfoldVisible(o, names[i..]);
  }

  lemma {:induction false} VisibleExact(o: Instance, names: seq<string>, name: string)
    ensures name in Visible(o, names) <==> name in names && IsPublic(o.class_, name) && Lookup(o.own, name).None?
    decreases |names|
  {
    if names != [] {
      VisibleExact(o, names[1..], name);
      assert name in names <==> name == names[0] || name in names[1..];
    }
  }

  lemma {:induction false} LookupSame(own: seq<Entry>, a: string, b: string)
    requires SameName(a, b) && MapOk(own)
    ensures Lookup(own, a) == Lookup(own, b)
  {
  }

  /** A name listed by the enumeration, up to case. */
  ghost predicate Listed(o: Instance, key: string) {
    exists name :: name in PublicKeys(o) && SameName(name, key)
  }

  /** The probe answers what scanning the enumeration answered, null data members apart. */
  lemma {:induction false} ProbeAgreesWithEnumeration(o: Instance, key: string)
    requires MapOk(o.own) && BlueprintOk(o.class_)
    ensures HasPublicKey(o, key) <==> Listed(o, key) && !(Lookup(o.own, key).Some? && IsNull(Lookup(o.own, key).value))
  {
    hide Visible;
    var own := Lookup(o.own, key);
    if own.Some? {
      var i :| 0 <= i < |o.own| && SameName(o.own[i].key, key);
      assert OwnKeys(o.own)[i] in PublicKeys(o);
    } else {
      if HasPublicKey(o, key) {
        var i :| 0 <= i < |o.class_.methods| && Fold(o.class_.methods[i]) == Fold(key);
        var name := o.class_.methods[i];
        LookupSame(o.own, name, key);
        VisibleExact(o, o.class_.methods, name);
        assert name in PublicKeys(o) && SameName(name, key);
      }
      if Listed(o, key) {
        var name :| name in PublicKeys(o) && SameName(name, key);
        NotOwn(o, name, key);
        VisibleExact(o, o.class_.methods, name);
      }
    }
  }

  lemma {:induction false} NotOwn(o: Instance, name: string, key: string)
    requires name in PublicKeys(o) && SameName(name, key) && Lookup(o.own, key).None?
    ensures o.attached && name in Visible(o, o.class_.methods)
  {
    hide Visible;
    forall i | 0 <= i < |o.own|
      ensures OwnKeys(o.own)[i] != name
    {
      assert !SameName(o.own[i].key, key);
    }
  }

  /** For an instance of a class built from its marker no assumption about the blueprint is left. */
  lemma {:induction false} ProbeOnBuiltClass(marker: Scope, vars: Option<Scope>, own: seq<Entry>, attached: bool, key: string)
    requires MapOk(own)
    ensures var o := Instance(own, attached, FromScopes(marker, vars));
            HasPublicKey(o, key) <==> Listed(o, key) && !(Lookup(own, key).Some? && IsNull(Lookup(own, key).value))
  {
    hide FromScopes, HasPublicKey, Listed, BlueprintOk;
    FromScopesOk(marker, vars);
    ProbeAgreesWithEnumeration(Instance(own, attached, FromScopes(marker, vars)), key);
  }

  // ---- Which names, and in which order ----

  /** Exactly the functions swept are methods, under their own spellings; nothing else has an access. */
  lemma {:induction false} MethodsExact(marker: Scope, vars: Option<Scope>, name: string)
    ensures name in FromScopes(marker, vars).methods <==>
            exists i :: 0 <= i < |AllEntries(marker, vars)| && AllEntries(marker, vars)[i].member.Function? && AllEntries(marker, vars)[i].key == name
    ensures name in FromScopes(marker, vars).access <==>
            exists i :: 0 <= i < |AllEntries(marker, vars)| && AllEntries(marker, vars)[i].member.Function? && Fold(AllEntries(marker, vars)[i].key) == name
  {
    hide Harvested, FromScopes, AllEntries, Fold;
    SweptInOrder(marker, vars);
    HarvestedExact(NO_METHODS, AllEntries(marker, vars), name);
  }

  lemma {:induction false} HarvestedExact(bp: Blueprint, es: seq<Entry>, name: string)
    ensures name in Harvested(bp, es).methods <==> name in bp.methods || exists i :: 0 <= i < |es| && es[i].member.Function? && es[i].key == name
    ensures name in Harvested(bp, es).access <==> name in bp.access || exists i :: 0 <= i < |es| && es[i].member.Function? && Fold(es[i].key) == name
    decreases |es|
  {
    hide Fold;
    if es != [] {
      HarvestedExact(if es[0].member.Function? then WithMethod(bp, es[0].key, es[0].member.access) else bp, es[1..], name);
      forall i | 0 <= i < |es|
        ensures i > 0 ==> es[i] == es[1..][i - 1]
      {
      }
    }
  }

  /** Methods are listed in the order in which their spellings first appear. */
  lemma {:induction false} MethodsInOrder(bp: Blueprint, es: seq<Entry>, e: Entry)
    ensures Harvested(bp, es + [e]).methods ==
            Harvested(bp, es).methods + if e.member.Function? && e.key !in Harvested(bp, es).methods then [e.key] else []
  {
    HarvestedAppend(bp, es, [e]);
    assert [e][1..] == [];
    var r := Harvested(bp, es);
    assert Harvested(r, [e]) == if e.member.Function? then WithMethod(r, e.key, e.member.access) else r;
  }

  /** A key is listed when it is the instance's own, or a public or remote method of its class that no own key shadows. */
  lemma {:induction false} ListedExact(o: Instance, name: string)
    requires BlueprintOk(o.class_)
    ensures name in PublicKeys(o) <==>
            || (exists i :: 0 <= i < |o.own| && o.own[i].key == name)
            || (o.attached && name in o.class_.methods && (o.class_.access[Fold(name)] == Public || o.class_.access[Fold(name)] == Remote)
                && forall i :: 0 <= i < |o.own| ==> !SameName(o.own[i].key, name))
  {
    hide Fold, Visible, Lookup;
    VisibleExact(o, o.class_.methods, name);
    if name in o.class_.methods {
      var i :| 0 <= i < |o.class_.methods| && o.class_.methods[i] == name;
      assert Fold(o.class_.methods[i]) in o.class_.access;
    }
    OwnListed(o.own, name);
    LookupExact(o.own, name);
  }

  lemma {:induction false} OwnListed(own: seq<Entry>, name: string)
    ensures name in OwnKeys(own) <==> exists i :: 0 <= i < |own| && own[i].key == name
  {
    if name in OwnKeys(own) {
      var i :| 0 <= i < |OwnKeys(own)| && OwnKeys(own)[i] == name;
      assert own[i].key == name;
    }
    forall i | 0 <= i < |own| && own[i].key == name
      ensures name in OwnKeys(own)
    {
      assert OwnKeys(own)[i] == name;
    }
  }

  lemma {:induction false} LookupExact(own: seq<Entry>, key: string)
    ensures Lookup(own, key).None? <==> forall i :: 0 <= i < |own| ==> !SameName(own[i].key, key)
  {
    hide Fold;
  }

  /** Own keys come first, in their order; the methods after them keep theirs. */
  lemma {:induction false} ListedInOrder(o: Instance, a: seq<string>, b: seq<string>)
    ensures |PublicKeys(o)| >= |o.own| && forall i :: 0 <= i < |o.own| ==> PublicKeys(o)[i] == o.own[i].key
    ensures Visible(o, a + b) == Visible(o, a) + Visible(o, b)
    decreases |a|
  {
    hide Fold, Lookup, IsPublic;
    if a == [] {
      assert a + b == b && [] + Visible(o, b) == Visible(o, b);
    } else {
      assert (a + b)[0] == a[0] && (a + b)[1..] == a[1..] + b;
      ListedInOrder(o, a[1..], b);
    }
  }
}
