/** The user form: the permission selection (`permisosUsuarioFinal`) and its three
    operations, the name and password validators, the submission target and the URL the
    form returns to. */
module UserForm {
  import opened Wrappers
  import opened Text
  import opened Seqs
  import opened Validation
  import opened QueryParams

  // ---------------------------------------------------------------------------
  // Permissions

  /** The permission at the head of each category, on which the others depend. */
  predicate IsRoot(p: string) {
    p == "users.view" || p == "products.view" || p == "reports.view" || p == "config.access"
  }

  /** The permissions removed with a root permission. */
  function Dependents(p: string): (r: seq<string>)
    ensures !IsRoot(p) ==> r == []
    ensures p !in r
  {
    if p == "users.view" then ["users.edit", "users.delete", "users.create"]
    else if p == "products.view" then ["products.edit", "products.delete", "products.create"]
    else if p == "reports.view" then ["reports.print", "reports.export"]
    else if p == "config.access" then ["config.modify"]
    else []
  }

  /** `comprobadorDependencias(permiso, parent)`: root checkboxes are always enabled; any
      other is disabled while its category's parent is not selected. */
  function CheckboxDisabled(selected: seq<string>, permiso: string, parent: string): (r: bool)
    ensures IsRoot(permiso) ==> !r
    ensures !IsRoot(permiso) ==> (r <==> parent !in selected)
  {
    if IsRoot(permiso) then false else parent !in selected
  }

  /** `togglePermiso(permiso)` on the selection `s`: a selected permission is removed (every
      occurrence, with its dependents when it is a root); any other is appended. */
  function Toggled(s: seq<string>, p: string): (r: seq<string>)
    ensures p !in s ==> r == s + [p]
    ensures p in s ==> p !in r && forall d | d in Dependents(p) :: d !in r
    ensures p in s ==> forall x :: x in r <==> x in s && x != p && x !in Dependents(p)
    ensures p in s ==>
              forall x :: multiset(r)[x] == if x == p || x in Dependents(p) then 0 else multiset(s)[x]
  {
    if p in s then
      var deps := Dependents(p);
      forall x
        ensures multiset(Filter(Filter(s, x => x !in deps), x => x != p))[x] ==
                if x == p || x in deps then 0 else multiset(s)[x]
      {
        FilterCount(s, x => x !in deps, x);
        FilterCount(Filter(s, x => x !in deps), x => x != p, x);
      }
      Filter(Filter(s, x => x !in deps), x => x != p)
    else s + [p]
  }

  /** Removing a permission keeps the order of what remains. */
  lemma ToggleOffIsSubseq(s: seq<string>, p: string)
    requires p in s
    ensures Subseq(Toggled(s, p), s)
  {
    var deps := Dependents(p);
    var a := Filter(s, x => x !in deps);
    FilterIsSubseq(s, x => x !in deps);
    FilterIsSubseq(a, x => x != p);
    SubseqTrans(Filter(a, x => x != p), a, s);
  }

  lemma {:induction false} SubseqTrans<T>(a: seq<T>, b: seq<T>, c: seq<T>)
    requires Subseq(a, b) && Subseq(b, c)
    ensures Subseq(a, c)
    decreases |c|
  {
    if c != [] {
      if b != [] && b[0] == c[0] && Subseq(b[1..], c[1..]) {
        if a != [] && a[0] == b[0] && Subseq(a[1..], b[1..]) {
          SubseqTrans(a[1..], b[1..], c[1..]);
        } else {
          SubseqTrans(a, b[1..], c[1..]);
        }
      } else {
        SubseqTrans(a, b, c[1..]);
      }
    }
  }

  /** Removing a permission that is not a root removes that permission and nothing else. */
  lemma NonRootRemovesOnlyItself(s: seq<string>, p: string)
    requires p in s && !IsRoot(p)
    ensures Toggled(s, p) == Filter(s, x => x != p)
  {
    var deps := Dependents(p);
    FilterKeepsAll(s, x => x !in deps);
  }

  /** Toggling an absent permission twice: a non-root leaves the selection as it was;
      a root takes its dependents away. */
  lemma {:induction false} ToggleTwice(s: seq<string>, p: string)
    requires p !in s
    ensures Toggled(Toggled(s, p), p) == Filter(s, x => x !in Dependents(p))
    ensures !IsRoot(p) ==> Toggled(Toggled(s, p), p) == s
  {
    var deps := Dependents(p);
    var t := s + [p];
    assert p in t;
    FilterAppend(s, [p], x => x !in deps);
    var a := Filter(s, x => x !in deps);
    assert Filter([p], x => x !in deps) == [p];
    FilterAppend(a, [p], x => x != p);
    assert Filter([p], x => x != p) == [];
    forall i | 0 <= i < |a|
      ensures a[i] != p
    {
      assert a[i] in s;
    }
    FilterKeepsAll(a, x => x != p);
    if !IsRoot(p) {
      FilterKeepsAll(s, x => x !in deps);
    }
  }

  /** Turning a root off leaves all of its dependents unselected and their checkboxes
      disabled. */
  lemma RootOffDisablesDependents(s: seq<string>, root: string, d: string)
    requires IsRoot(root) && root in s && d in Dependents(root)
    ensures d !in Toggled(s, root)
    ensures CheckboxDisabled(Toggled(s, root), d, root)
  {
    assert !IsRoot(d);
  }

  /** The selection after toggling each of `ps` in order, starting from `s`. */
  function Replay(s: seq<string>, ps: seq<string>): seq<string>
    decreases |ps|
  {
    if ps == [] then s else Toggled(Replay(s, ps[..|ps| - 1]), ps[|ps| - 1])
  }

  /** Replaying a role's permissions when none repeats selects exactly those permissions,
      in the role's order. */
  lemma {:induction false} ReplayDistinct(ps: seq<string>)
    requires Distinct(ps)
    ensures Replay([], ps) == ps
    decreases |ps|
  {
    if ps != [] {
      var init := ps[..|ps| - 1];
      assert Distinct(init);
      ReplayDistinct(init);
      assert ps[|ps| - 1] !in init;
      assert init + [ps[|ps| - 1]] == ps;
    }
  }

  /** A permission listed twice in a role toggles itself back off. */
  lemma RepeatedPermissionCancels()
    ensures Replay([], ["users.edit", "users.edit"]) == []
  {
    var ps := ["users.edit", "users.edit"];
    assert ps[..1] == ["users.edit"];
    assert [ps[0]][..0] == [];
    assert Replay([], ps[..1]) == ["users.edit"];
    NonRootRemovesOnlyItself(["users.edit"], "users.edit");
  }

  datatype RoleError = UnknownRole

  /** The selection, a variable shared by every instance of the form. */
  class PermissionSelection {
    var selected: seq<string>

    constructor ()
      ensures selected == []
    {
      selected := [];
    }

    /** The effect on mount: the edited user's permissions when both they and the user are
        given, the empty selection otherwise. */
    method Reset(userPermissions: Option<seq<string>>, editing: bool)
      modifies this
      ensures selected == (if userPermissions.Some? && editing then userPermissions.value else [])
    {
      if userPermissions.Some? && editing {
        selected := userPermissions.value;
      } else {
        selected := [];
      }
    }

    /** `togglePermiso` */
    method Toggle(p: string)
      modifies this
      ensures selected == Toggled(old(selected), p)
    {
      if p in selected {
        var deps := Dependents(p);
        selected := Filter(Filter(selected, x => x !in deps), x => x != p);
      } else {
        selected := selected + [p];
      }
    }

    /** `roleSelector(role)`: clears the selection, then toggles the role's permissions in
        order. A role without an entry leaves the selection cleared and fails when its
        (undefined) permission list is iterated. */
    method SelectRole(rolePermissions: map<string, seq<string>>, role: string) returns (r: Result<(), RoleError>)
      modifies this
      ensures r.Ok? <==> role in rolePermissions
      ensures r.Ok? ==> selected == Replay([], rolePermissions[role])
      ensures r.Err? ==> selected == []
    {
      selected := [];
      if role !in rolePermissions {
        return Err(UnknownRole);
      }
      var ps := rolePermissions[role];
      for i := 0 to |ps|
        invariant selected == Replay([], ps[..i])
      {
        assert ps[..i + 1][..i] == ps[..i];
        Toggle(ps[i]);
      }
      assert ps[..|ps|] == ps;
      r := Ok(());
    }
  }

  // ---------------------------------------------------------------------------
  // Validators

  /** `name`: empty is `required`, shorter than 2 is `min`. */
  function ValidateName(value: string): (r: Verdict)
    ensures r == Valid <==> |value| >= 2
    ensures r == Invalid(Required) <==> value == ""
    ensures r == Invalid(MinLength(2)) <==> |value| == 1
  {
    var checks := [Check(value != "", Required), Check(|value| >= 2, MinLength(2))];
    assert |checks| == 2 && checks[0].passes == (value != "") && checks[1].passes == (|value| >= 2);
    FirstFailure(checks)
  }

  /** `password`: required only when creating; a non-empty password shorter than 8 is
      `min`, whether creating or editing. */
  function ValidatePassword(value: string, editing: bool): (r: Verdict)
    ensures r == Valid <==> |value| >= 8 || (editing && value == "")
    ensures r == Invalid(Required) <==> !editing && value == ""
    ensures r == Invalid(MinLength(8)) <==> 0 < |value| < 8
  {
    var checks := [Check(editing || value != "", Required), Check(value == "" || |value| >= 8, MinLength(8))];
    assert |checks| == 2 && checks[0].passes == (editing || value != "") &&
           checks[1].passes == (value == "" || |value| >= 8);
    FirstFailure(checks)
  }

  // ---------------------------------------------------------------------------
  // Submission and return URL

  const UsersPath: string := "/users"

  /** PUT `/users/{id}` when editing a user, POST `/users` otherwise. */
  function SubmitTarget(editedId: Option<string>): (r: Submission)
    ensures r.verb == Put <==> editedId.Some?
    ensures r.verb == Put ==> |r.path| >= 7 && r.path[..7] == UsersPath + "/" && r.path[7..] == editedId.value
    ensures r.verb == Post ==> r.path == UsersPath
  {
    match editedId
    case Some(id) => Submission(Put, UsersPath + "/" + id)
    case None => Submission(Post, UsersPath)
  }

  /** What the user index reads from the URL visited after saving or on cancel: the page,
      and the page size only together with a page. */
  lemma ReturnUrlReadBack(page: Option<string>, perPage: Option<string>)
    requires SafeOption(page) && SafeOption(perPage)
    ensures var url := NestedReturnUrl(UsersPath, page, perPage);
            PathOf(url) == UsersPath &&
            SearchParam(url, "page") == (if Truthy(page) then page else None) &&
            SearchParam(url, "per_page") == (if Truthy(page) && Truthy(perPage) then perPage else None)
  {
    NestedReturnUrlReadBack(UsersPath, page, perPage);
  }
}
