/** The model-side registry of attribute groups: a class attribute holding
    a map from group name to group, copied before every change so that a
    superclass's map is never modified through a subclass. */
module ModelMixin {
  import opened Common

  /** An attribute group: its name, the group it extends, and the attributes
      its definition block declared on it. */
  datatype AttrGroup = AttrGroup(name: string, base: Option<AttrGroup>, attrs: seq<string>)

  /** An `attr_groups` map, keyed by symbolized group name. */
  type Groups = map<string, AttrGroup>

  /** The class attribute along one superclass chain, starting at the class
      that includes the mixin: `Some(m)` where a class assigned a map of its
      own, `None` where it reads its superclass's. */
  type Lineage = seq<Option<Groups>>

  /** The `attr_groups` class `i` of the chain reads: its own map, else the
      nearest superclass's, else the `{}` default. */
  function AttrGroupsAt(lineage: Lineage, i: nat): (g: Groups)
    requires i < |lineage|
    ensures lineage[i].Some? ==> g == lineage[i].value
    ensures (exists j :: 0 <= j <= i && lineage[j] == Some(g) && forall k :: j < k <= i ==> lineage[k].None?) ||
            (g == map[] && forall k :: 0 <= k <= i ==> lineage[k].None?)
  {
    if lineage[i].Some? then lineage[i].value
    else if i == 0 then map[]
    else AttrGroupsAt(lineage, i - 1)
  }

  /** A chain of `n` classes none of which has defined a group yet. */
  function Included(n: nat): (l: Lineage)
    ensures |l| == n
    ensures forall j :: 0 <= j < n ==> AttrGroupsAt(l, j) == map[]
  {
    var l := seq(n, _ => None);
    forall j | 0 <= j < n ensures AttrGroupsAt(l, j) == map[] {
      NoOwnMapReadsDefault(l, j);
    }
    l
  }

  /** A class none of whose ancestors assigned a map reads the empty default. */
  lemma {:induction false} NoOwnMapReadsDefault(l: Lineage, j: nat)
    requires j < |l|
    requires forall k :: 0 <= k <= j ==> l[k].None?
    ensures AttrGroupsAt(l, j) == map[]
  {
    if j > 0 {
      NoOwnMapReadsDefault(l, j - 1);
    }
  }

  /** The base group `inherit:` names, looked up as given in `groups`: group
      names are Symbols, so a String never finds one. */
  function InheritedBase(groups: Groups, inherit: Option<Name>): Option<AttrGroup>
  {
    match inherit
    case None => None
    case Some(Str(_)) => None
    case Some(Sym(s)) => if s in groups then Some(groups[s]) else None
  }

  /** The chain after the call, and the group the call registered. */
  datatype Registration = Registration(lineage: Lineage, group: AttrGroup)

  /** `attr_group(name, inherit:, &block)` on class `i`: copies the map the
      class reads, resolves `inherit` in it, builds the new group on that
      base, lets the block declare its attributes, and stores the group under
      the symbolized name in the copy, which becomes the class's own map. */
  function DefineAttrGroup(lineage: Lineage, i: nat, name: Name, inherit: Option<Name>,
                           define: AttrGroup -> seq<string>): (r: Registration)
    requires i < |lineage|
    // only class i's own entry changes
    ensures |r.lineage| == |lineage| && r.lineage[i].Some?
    ensures forall j :: 0 <= j < |lineage| && j != i ==> r.lineage[j] == lineage[j]
    // the class now reads the map it read before plus the new group
    ensures AttrGroupsAt(r.lineage, i).Keys == AttrGroupsAt(lineage, i).Keys + {ToSym(name)}
    ensures AttrGroupsAt(r.lineage, i)[ToSym(name)] == r.group
    ensures forall k :: k in AttrGroupsAt(lineage, i) && k != ToSym(name) ==>
      AttrGroupsAt(r.lineage, i)[k] == AttrGroupsAt(lineage, i)[k]
    // the group: its name, its base resolved before insertion, the block's attributes
    ensures r.group.name == ToSym(name)
    ensures inherit.None? ==> r.group.base.None?
    ensures inherit.Some? && inherit.value.Sym? && inherit.value.text in AttrGroupsAt(lineage, i) ==>
      r.group.base == Some(AttrGroupsAt(lineage, i)[inherit.value.text])
    ensures inherit.Some? && (inherit.value.Str? || inherit.value.text !in AttrGroupsAt(lineage, i)) ==>
      r.group.base.None?
    ensures r.group.attrs == define(AttrGroup(r.group.name, r.group.base, []))
  {
    var key := ToSym(name);
    var copy := AttrGroupsAt(lineage, i);
    var created := AttrGroup(key, InheritedBase(copy, inherit), []);
    var group := created.(attrs := define(created));
    Registration(lineage[i := Some(copy[key := group])], group)
  }

  /** Copy on write: a superclass of the class that defined a group reads
      exactly the map it read before. */
  lemma {:induction false} SuperclassesUnchanged(lineage: Lineage, i: nat, name: Name, inherit: Option<Name>,
                                                 define: AttrGroup -> seq<string>, j: nat)
    requires j < i < |lineage|
    ensures AttrGroupsAt(DefineAttrGroup(lineage, i, name, inherit, define).lineage, j) == AttrGroupsAt(lineage, j)
  {
    var after := DefineAttrGroup(lineage, i, name, inherit, define).lineage;
    if after[j].None? && j > 0 {
      SuperclassesUnchanged(lineage, i, name, inherit, define, j - 1);
    }
  }

  /** A subclass that never assigned its own map reads the defining class's
      new map, new group included. */
  lemma {:induction false} SubclassesInherit(lineage: Lineage, i: nat, name: Name, inherit: Option<Name>,
                                             define: AttrGroup -> seq<string>, j: nat)
    requires i <= j < |lineage|
    requires forall k :: i < k <= j ==> lineage[k].None?
    ensures var after := DefineAttrGroup(lineage, i, name, inherit, define).lineage;
      AttrGroupsAt(after, j) == AttrGroupsAt(after, i)
  {
    if j > i {
      SubclassesInherit(lineage, i, name, inherit, define, j - 1);
    }
  }

  /** A subclass that assigned its own map earlier keeps reading it. */
  lemma {:induction false} OverridingSubclassUnaffected(lineage: Lineage, i: nat, name: Name, inherit: Option<Name>,
                                                        define: AttrGroup -> seq<string>, j: nat, k: nat)
    requires i < k <= j < |lineage|
    requires lineage[k].Some?
    ensures AttrGroupsAt(DefineAttrGroup(lineage, i, name, inherit, define).lineage, j) == AttrGroupsAt(lineage, j)
  {
    var after := DefineAttrGroup(lineage, i, name, inherit, define).lineage;
    if j > k && after[j].None? {
      OverridingSubclassUnaffected(lineage, i, name, inherit, define, j - 1, k);
    }
  }

  /** `inherit:` naming the group being defined extends its previous
      definition, which the new group then replaces. */
  lemma InheritSelfExtendsPrevious(lineage: Lineage, i: nat, s: string, define: AttrGroup -> seq<string>)
    requires i < |lineage| && s in AttrGroupsAt(lineage, i)
    ensures var r := DefineAttrGroup(lineage, i, Sym(s), Some(Sym(s)), define);
      r.group.base == Some(AttrGroupsAt(lineage, i)[s]) &&
      AttrGroupsAt(r.lineage, i)[s] == r.group &&
      AttrGroupsAt(r.lineage, i).Keys == AttrGroupsAt(lineage, i).Keys
  {
  }
}
