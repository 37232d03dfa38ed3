/**
 * The profile screen's permission summary: the granted flags other than the
 * view flags, listed by name in record order and grouped under five headings by
 * the words their names contain.
 */
module ProfileScreen {
  import opened Wrappers
  import opened Domain
  import opened PermissionNames

  /**
   * The flags of `p` from position `i` on whose value is true and whose name
   * does not mention 'view', in record order.
   */
  function ListedFrom(p: Perms, i: nat): (fs: seq<Flag>)
    requires i <= 18
    decreases 18 - i
    ensures forall f: Flag :: f in fs <==> i <= f as int && Read(p, f) && !Mentions(Key(f), "view")
    ensures forall j, k :: 0 <= j < k < |fs| ==> fs[j] < fs[k]
  {
    if i == 18 then []
    else
      var f := i as Flag;
      var rest := ListedFrom(p, i + 1);
      if Read(p, f) && !Mentions(Key(f), "view") then
        PrependAscending(f, rest);
        [f] + rest
      else rest
  }

  /** A flag below every flag of an ascending list keeps it ascending when put first. */
  lemma PrependAscending(f: Flag, rest: seq<Flag>)
    requires forall g: Flag :: g in rest ==> f < g
    requires forall j, k :: 0 <= j < k < |rest| ==> rest[j] < rest[k]
    ensures forall j, k :: 0 <= j < k < |[f] + rest| ==> ([f] + rest)[j] < ([f] + rest)[k]
    ensures forall g: Flag :: g in [f] + rest <==> g == f || g in rest
  {
    var r := [f] + rest;
    forall j, k | 0 <= j < k < |r|
      ensures r[j] < r[k]
    {
      assert r[k] == rest[k - 1] && rest[k - 1] in rest;
      if j > 0 {
        assert r[j] == rest[j - 1];
      }
    }
  }

  /** The flags behind the listed names; none without a user or a permission record. */
  function ListedFlags(user: Option<User>): (fs: seq<Flag>)
    ensures forall f: Flag :: f in fs <==>
      user.Some? && user.value.permissions.Some? && Read(user.value.permissions.value, f) && !Mentions(Key(f), "view")
    ensures forall j, k :: 0 <= j < k < |fs| ==> fs[j] < fs[k]
  {
    if user.None? || user.value.permissions.None? then []
    else ListedFrom(user.value.permissions.value, 0)
  }

  /**
   * `Object.entries(user?.permissions || {})` kept where the value is true and
   * the lower-cased name does not contain 'view', mapped to the names.
   */
  function Listed(user: Option<User>): (keys: seq<string>)
    ensures |keys| == |ListedFlags(user)|
    ensures forall j :: 0 <= j < |keys| ==> keys[j] == Key(ListedFlags(user)[j])
  {
    var fs := ListedFlags(user);
    seq(|fs|, j requires 0 <= j < |fs| => Key(fs[j]))
  }

  /** Without a user or without a permission record nothing is listed. */
  lemma ListedWithoutRecord(user: Option<User>)
    requires user.None? || user.value.permissions.None?
    ensures Listed(user) == []
  {
  }

  /** A name is listed exactly when its flag is granted and is not a view flag. */
  lemma ListedExactly(user: Option<User>)
    requires user.Some? && user.value.permissions.Some?
    ensures forall f: Flag :: Key(f) in Listed(user) <==> Read(user.value.permissions.value, f) && !IsViewFlag(f)
  {
    var p := user.value.permissions.value;
    var fs := ListedFlags(user);
    var keys := Listed(user);
    forall f: Flag
      ensures Key(f) in keys <==> Read(p, f) && !IsViewFlag(f)
    {
      ViewWord(f);
      if Key(f) in keys {
        var j :| 0 <= j < |keys| && keys[j] == Key(f);
        KeysDistinct(f, fs[j]);
        assert fs[j] in fs;
      }
      if Read(p, f) && !IsViewFlag(f) {
        var j :| 0 <= j < |fs| && fs[j] == f;
        assert keys[j] == Key(f);
      }
    }
  }

  /** The names are listed in the order of the permission record, each once. */
  lemma ListedInRecordOrder(user: Option<User>)
    ensures forall j, k :: 0 <= j < k < |ListedFlags(user)| ==> ListedFlags(user)[j] < ListedFlags(user)[k]
    ensures forall j, k :: 0 <= j < k < |Listed(user)| ==> Listed(user)[j] != Listed(user)[k]
  {
    var fs := ListedFlags(user);
    forall j, k | 0 <= j < k < |Listed(user)|
      ensures Listed(user)[j] != Listed(user)[k]
    {
      if Listed(user)[j] == Listed(user)[k] {
        KeysDistinct(fs[j], fs[k]);
      }
    }
  }

  /** `groupedPermissions[g]`: the listed names passing the heading's word test, in order. */
  function Grouped(keys: seq<string>, g: Group): (r: seq<string>)
    ensures |r| <= |keys|
    ensures forall k :: k in r <==> k in keys && InGroup(k, g)
  {
    if keys == [] then []
    else
      assert forall k :: k in keys <==> k == keys[0] || k in keys[1..];
      if InGroup(keys[0], g) then [keys[0]] + Grouped(keys[1..], g) else Grouped(keys[1..], g)
  }

  /** Grouping filters element by element, so each heading keeps the listing's order. */
  lemma {:induction false} GroupedAppend(a: seq<string>, b: seq<string>, g: Group)
    ensures Grouped(a + b, g) == Grouped(a, g) + Grouped(b, g)
  {
    if a == [] {
      assert a + b == b;
    } else {
      assert (a + b)[1..] == a[1..] + b;
      GroupedAppend(a[1..], b, g);
    }
  }

  /** Every listed permission appears under exactly one heading: the one of its flag. */
  lemma ExactlyOneGroup(user: Option<User>)
    ensures forall f: Flag, g :: Key(f) in Listed(user) ==>
      (Key(f) in Grouped(Listed(user), g) <==> g == GroupOf(f))
  {
    forall f: Flag, g | Key(f) in Listed(user)
      ensures Key(f) in Grouped(Listed(user), g) <==> g == GroupOf(f)
    {
      ListedExactly(user);
      GroupWords(f);
    }
  }

  /** `user?.role !== 'head-chef' && permissions.length > 0`. */
  predicate ShowsPermissionSection(user: Option<User>)
    ensures ShowsPermissionSection(user) ==> user.Some? && user.value.permissions.Some? && !IsHeadChef(user)
  {
    !IsHeadChef(user) && |Listed(user)| > 0
  }

  /**
   * The permission section shows exactly for a user other than a head chef
   * holding some flag other than the view flags.
   */
  lemma PermissionSectionShown(user: Option<User>)
    ensures ShowsPermissionSection(user) <==>
      !IsHeadChef(user) && user.Some? && user.value.permissions.Some? &&
      exists f: Flag :: Read(user.value.permissions.value, f) && !IsViewFlag(f)
  {
    if user.Some? && user.value.permissions.Some? {
      ListedExactly(user);
      if |Listed(user)| > 0 {
        var f := ListedFlags(user)[0];
        assert Listed(user)[0] == Key(f);
      }
    }
  }
}
