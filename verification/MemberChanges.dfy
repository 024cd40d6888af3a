/** Who may register, change roles, disable and reactivate, and what each refusal means (app/auth.py, `register_owner`,
    `change_role`, `disable_member`, `reactivate_member`). */
module MemberChanges {
  import opened Wrappers
  import opened Members

  /** The membership belongs to the caller's organization. */
  predicate InReach(s: State, p: Principal, membership: nat) {
    membership in s.memberships && s.memberships[membership].organization == p.organization
  }

  /** The one owner of the caller's organization that is left, or none. */
  predicate LastOwnerOf(s: State, p: Principal, membership: nat) {
    membership in s.memberships && s.memberships[membership].role == Owner
    && |ActiveOwners(s.memberships, p.organization)| <= 1
  }

  /** A role is changed exactly in reach of the caller, by an owner if it is the owner's role, and not away from the
      last owner; only that role changes then. */
  lemma RoleChangesIff(s: State, p: Principal, membership: nat, role: Role)
    ensures var r := ChangeRoleIn(s, p, membership, role);
            && (r.Success? <==>
                  && InReach(s, p, membership) && (role == Owner ==> p.role == Owner)
                  && (role != Owner ==> !LastOwnerOf(s, p, membership)))
            && (r.Success? ==>
                  var before := s.memberships[membership];
                  var after := Membership(before.organization, before.user, role, before.active);
                  r.value == s.(memberships := s.memberships[membership := after]))
            && (r.Failure? ==>
                  && (r.error == NotFound <==> !InReach(s, p, membership))
                  && (r.error == LastOwner <==> InReach(s, p, membership) && role != Owner)
                  && (r.error == SelfElevation <==>
                        InReach(s, p, membership) && role == Owner && s.memberships[membership].user == p.user)
                  && (r.error == OwnerOnly <==>
                        InReach(s, p, membership) && role == Owner && s.memberships[membership].user != p.user))
  {
    hide ActiveOwners;
  }

  /** A membership is disabled exactly in reach of the caller, unless it is the last owner's. */
  lemma DisabledIff(s: State, p: Principal, membership: nat)
    ensures var r := DisableIn(s, p, membership);
            && (r.Success? <==> InReach(s, p, membership) && !LastOwnerOf(s, p, membership))
            && (r.Success? ==>
                  var before := s.memberships[membership];
                  var after := Membership(before.organization, before.user, before.role, false);
                  r.value == s.(memberships := s.memberships[membership := after]))
            && (r.Failure? ==> r.error == if InReach(s, p, membership) then LastOwner else NotFound)
  {
    hide ActiveOwners;
  }

  /** A membership is reactivated exactly in reach of the caller. */
  lemma ReactivatedIff(s: State, p: Principal, membership: nat)
    ensures var r := ReactivateIn(s, p, membership);
            && (r.Success? <==> InReach(s, p, membership))
            && (r.Success? ==>
                  var before := s.memberships[membership];
                  var after := Membership(before.organization, before.user, before.role, true);
                  r.value == s.(memberships := s.memberships[membership := after]))
            && (r.Failure? ==> r.error == NotFound)
  {
  }

  /** Disabling undoes reactivating and the other way round, and a changed role can be changed back by an owner of the
      organization who is another one. */
  lemma ChangesAreUndone(s: State, p: Principal, membership: nat, role: Role)
    requires InReach(s, p, membership)
    ensures var r := DisableIn(s, p, membership);
            r.Success? && s.memberships[membership].active ==> ReactivateIn(r.value, p, membership) == Success(s)
    ensures var r := ChangeRoleIn(s, p, membership, role);
            var before := s.memberships[membership].role;
            r.Success? && p.role == Owner && (before != Owner ==> !LastOwnerOf(r.value, p, membership)) ==>
              ChangeRoleIn(r.value, p, membership, before) == Success(s)
  {
    hide ActiveOwners;
    var m := s.memberships[membership];
    var disabled, changed := m.(active := false), m.(role := role);
    assert s.memberships[membership := disabled][membership := m] == s.memberships;
    assert s.memberships[membership := changed][membership := m] == s.memberships;
  }

  /** An owner registers exactly with an email nobody has, unless recording the registration fails; user, organization
      and an active owner's membership come together. */
  lemma RegisteredIff(s: State, email: string, user: nat, organization: nat, membership: nat, recordingFails: bool)
    ensures var r := RegisterIn(s, email, user, organization, membership, recordingFails);
            && (r.Success? <==> email !in s.usersByEmail && !recordingFails)
            && (r.Success? ==>
                  && r.value.usersByEmail == s.usersByEmail[email := User(user, email)]
                  && r.value.usersById == s.usersById[user := User(user, email)]
                  && r.value.organizations == s.organizations + {organization}
                  && r.value.memberships == s.memberships[membership := Membership(organization, user, Owner, true)]
                  && r.value.invitations == s.invitations)
            && (r.Failure? ==> r.error == if email in s.usersByEmail then EmailTaken else RegistrationConflict)
  {
  }
}
