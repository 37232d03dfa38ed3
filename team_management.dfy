/**
 * The team-management screen: the member list derived from the fetched team,
 * the status toggle, member deletion and the permission editor with its
 * "manage team grants everything" rule.
 */
module TeamManagement {
  import opened Wrappers
  import opened Domain

  /** A row of the member table. */
  datatype Member = Member(id: string, name: string, role: string, status: string, permissions: Perms)

  function FormatMember(u: User): Member
  {
    Member(u.id, u.name, u.role, u.status, u.permissions.GetOr(AllFalse))
  }

  /** The fetched team without its head chefs; a member without permissions gets the all-false record. */
  function FormatMembers(team: seq<User>): (ms: seq<Member>)
    ensures |ms| <= |team|
    ensures forall m :: m in ms ==> m.role != HeadChef
    ensures forall m :: m in ms <==> exists u :: u in team && u.role != HeadChef && m == FormatMember(u)
  {
    if team == [] then []
    else
      var rest := FormatMembers(team[1..]);
      assert forall u :: u in team <==> u == team[0] || u in team[1..];
      if team[0].role == HeadChef then rest else [FormatMember(team[0])] + rest
  }

  /** Formatting works element by element, so the members keep the team's order. */
  lemma {:induction false} FormatMembersAppend(a: seq<User>, b: seq<User>)
    ensures FormatMembers(a + b) == FormatMembers(a) + FormatMembers(b)
  {
    if a == [] {
      assert a + b == b;
    } else {
      assert (a + b)[1..] == a[1..] + b;
      FormatMembersAppend(a[1..], b);
    }
  }

  /** A team without head chefs keeps all its users, in order, with the permissions defaulted. */
  lemma {:induction false} FormatMembersWithoutHeadChefs(team: seq<User>)
    requires forall i :: 0 <= i < |team| ==> team[i].role != HeadChef
    ensures |FormatMembers(team)| == |team|
    ensures forall i :: 0 <= i < |team| ==>
      FormatMembers(team)[i] == Member(team[i].id, team[i].name, team[i].role, team[i].status,
                                       team[i].permissions.GetOr(AllFalse))
  {
    if team != [] {
      FormatMembersWithoutHeadChefs(team[1..]);
    }
  }

  /** The status the toggle requests: 'active' becomes 'pending', anything else 'active'. */
  function NextStatus(s: string): (r: string)
    ensures r == "active" || r == "pending"
    ensures r == "pending" <==> s == "active"
    ensures (s == "active" || s == "pending") ==> r != s
  {
    if s == "active" then "pending" else "active"
  }

  /** The first member with the given id (`members.find`). */
  function Find(ms: seq<Member>, id: string): (r: Option<Member>)
    ensures r.None? <==> forall m :: m in ms ==> m.id != id
    ensures r.Some? ==> r.value in ms && r.value.id == id
    ensures r.Some? ==> exists i :: 0 <= i < |ms| && ms[i] == r.value && forall j :: 0 <= j < i ==> ms[j].id != id
  {
    if ms == [] then None
    else if ms[0].id == id then Some(ms[0])
    else Find(ms[1..], id)
  }

  /** Every member with the given id gets the new status; the others are kept as they are. */
  function SetStatus(ms: seq<Member>, id: string, s: string): (r: seq<Member>)
    ensures |r| == |ms|
    ensures forall i :: 0 <= i < |ms| ==>
      r[i] == (if ms[i].id == id then ms[i].(status := s) else ms[i])
  {
    if ms == [] then [] else
    [if ms[0].id == id then ms[0].(status := s) else ms[0]] + SetStatus(ms[1..], id, s)
  }

  /** Every member with the given id gets the new permissions; the others are kept as they are. */
  function SetPermissions(ms: seq<Member>, id: string, p: Perms): (r: seq<Member>)
    ensures |r| == |ms|
    ensures forall i :: 0 <= i < |ms| ==>
      r[i] == (if ms[i].id == id then ms[i].(permissions := p) else ms[i])
  {
    if ms == [] then [] else
    [if ms[0].id == id then ms[0].(permissions := p) else ms[0]] + SetPermissions(ms[1..], id, p)
  }

  /** `members.filter(m => m.id !== id)`. */
  function Remove(ms: seq<Member>, id: string): (r: seq<Member>)
    ensures |r| <= |ms|
    ensures forall m :: m in r <==> m in ms && m.id != id
  {
    if ms == [] then []
    else
      var rest := Remove(ms[1..], id);
      assert forall m :: m in ms <==> m == ms[0] || m in ms[1..];
      if ms[0].id == id then rest else [ms[0]] + rest
  }

  /** Removal keeps the relative order of the remaining members. */
  lemma {:induction false} RemoveAppend(a: seq<Member>, b: seq<Member>, id: string)
    ensures Remove(a + b, id) == Remove(a, id) + Remove(b, id)
  {
    if a == [] {
      assert a + b == b;
    } else {
      assert (a + b)[1..] == a[1..] + b;
      RemoveAppend(a[1..], b, id);
    }
  }

  /** Removing an id nobody has changes nothing. */
  lemma {:induction false} RemoveAbsent(ms: seq<Member>, id: string)
    requires forall i :: 0 <= i < |ms| ==> ms[i].id != id
    ensures Remove(ms, id) == ms
  {
    if ms != [] {
      RemoveAbsent(ms[1..], id);
    }
  }

  /**
   * The editor's canManageTeam checkbox: checking it also grants the sixteen
   * recipe, plate-up, notification and panel flags; unchecking it clears only
   * canManageTeam. canAccessAdmin is never touched.
   */
  function ManageTeamChecked(p: Perms, checked: bool): (q: Perms)
    ensures Read(q, CanManageTeam) == checked
    ensures Read(q, CanAccessAdmin) == Read(p, CanAccessAdmin)
    ensures checked ==> forall f: Flag :: f < CanManageTeam ==> Read(q, f)
    ensures !checked ==> forall f: Flag :: f != CanManageTeam ==> Read(q, f) == Read(p, f)
  {
    if checked then
      [true, true, true, true, true, true, true, true,
       true, true, true, true, true, true, true, true, true, p[17]]
    else Write(p, CanManageTeam, false)
  }

  /** Checking canManageTeam twice gives the same record as checking it once. */
  lemma ManageTeamCheckedIdempotent(p: Perms, checked: bool)
    ensures ManageTeamChecked(ManageTeamChecked(p, checked), checked) == ManageTeamChecked(p, checked)
  {
    var q := ManageTeamChecked(p, checked);
    var r := ManageTeamChecked(q, checked);
    assert forall i :: 0 <= i < 18 ==> r[i] == q[(i as Flag) as int];
  }

  /** A server request the screen sends: `PUT /users/team/<id>` with a status or permission body, or a delete. */
  datatype TeamRequest =
    | UpdateStatus(id: string, status: string)
    | UpdatePermissions(id: string, permissions: Perms)
    | DeleteMember(id: string)

  /** The screen's state: the member table, the open permission editor and its working copy. */
  class TeamScreen {
    var members: seq<Member>
    var permissionModal: Option<string>
    var permState: Perms

    constructor ()
      ensures members == [] && permissionModal == None && permState == AllFalse
    {
      members := [];
      permissionModal := None;
      permState := AllFalse;
    }

    /** The effect that runs when the team query delivers. */
    method Load(team: seq<User>)
      modifies this
      ensures members == FormatMembers(team)
      ensures permissionModal == old(permissionModal) && permState == old(permState)
    {
      members := FormatMembers(team);
    }

    /**
     * `handleStatusChange`: nothing is sent for an unknown id; otherwise the
     * toggled status is requested, and only on success (`ok`) is it applied to
     * the table.
     */
    method StatusChange(id: string, ok: bool) returns (sent: Option<TeamRequest>)
      modifies this
      ensures Find(old(members), id).None? ==> sent == None && members == old(members)
      ensures Find(old(members), id).Some? ==>
        var s := NextStatus(Find(old(members), id).value.status);
        sent == Some(UpdateStatus(id, s)) &&
        members == (if ok then SetStatus(old(members), id, s) else old(members))
      ensures permissionModal == old(permissionModal) && permState == old(permState)
    {
      var member := Find(members, id);
      if member.None? {
        return None;
      }
      var newStatus := NextStatus(member.value.status);
      sent := Some(UpdateStatus(id, newStatus));
      if ok {
        members := SetStatus(members, id, newStatus);
      }
    }

    /** `deleteMember`: the delete is always sent; on success every member with that id leaves the table. */
    method Delete(id: string, ok: bool) returns (sent: TeamRequest)
      modifies this
      ensures sent == DeleteMember(id)
      ensures members == (if ok then Remove(old(members), id) else old(members))
      ensures permissionModal == old(permissionModal) && permState == old(permState)
    {
      sent := DeleteMember(id);
      if ok {
        members := Remove(members, id);
      }
    }

    /** The "Permissions" menu item of member `i`: opens the editor on a copy of that member's record. */
    method OpenPermissions(i: nat)
      requires i < |members|
      modifies this
      ensures permissionModal == Some(old(members)[i].id) && permState == old(members)[i].permissions
      ensures members == old(members)
    {
      permissionModal := Some(members[i].id);
      permState := members[i].permissions;
    }

    /** One of the sixteen plain checkboxes of the editor. */
    method CheckFlag(f: Flag, checked: bool)
      requires f < CanManageTeam
      modifies this
      ensures permState == Write(old(permState), f, checked)
      ensures members == old(members) && permissionModal == old(permissionModal)
    {
      permState := Write(permState, f, checked);
    }

    /** The canManageTeam checkbox of the editor. */
    method CheckManageTeam(checked: bool)
      modifies this
      ensures permState == ManageTeamChecked(old(permState), checked)
      ensures members == old(members) && permissionModal == old(permissionModal)
    {
      permState := ManageTeamChecked(permState, checked);
    }

    /** The editor's Cancel button. */
    method CancelPermissions()
      modifies this
      ensures permissionModal == None
      ensures members == old(members) && permState == old(permState)
    {
      permissionModal := None;
    }

    /**
     * The editor's Save button (`permissionModal && savePermissions(permissionModal)`):
     * nothing happens unless the editor is open on a non-empty id; on success the
     * working copy replaces that member's permissions and the editor closes.
     */
    method SavePermissions(ok: bool) returns (sent: Option<TeamRequest>)
      modifies this
      ensures old(permissionModal).None? || old(permissionModal).value == "" ==>
        sent == None && members == old(members) && permissionModal == old(permissionModal)
      ensures old(permissionModal).Some? && old(permissionModal).value != "" ==>
        var id := old(permissionModal).value;
        sent == Some(UpdatePermissions(id, old(permState))) &&
        members == (if ok then SetPermissions(old(members), id, old(permState)) else old(members)) &&
        permissionModal == (if ok then None else old(permissionModal))
      ensures permState == old(permState)
    {
      if permissionModal.None? || permissionModal.value == "" {
        return None;
      }
      var id := permissionModal.value;
      sent := Some(UpdatePermissions(id, permState));
      if ok {
        members := SetPermissions(members, id, permState);
        permissionModal := None;
      }
    }
  }
}
