/** The staff selectors of `client/src/services/staffServices.ts`: order-preserving
    filters on the case-insensitive role string of each staff member. */
module StaffServices {
  import opened Wrappers
  import opened Text
  import opened Seqs

  /** A staff member as the staff service returns it; `role` may be missing in the
      decoded JSON, which the selectors guard against with `(s.role || '')`. */
  datatype Staff = Staff(
    id: string,
    name: string,
    email: Option<string>,
    role: Option<string>,
    phone: Option<string>)

  /** `(s.role || '').toLowerCase()`. */
  function RoleKey(s: Staff): string
  {
    Lower(s.role.GetOr(""))
  }

  predicate IsTechnician(s: Staff)
  {
    RoleKey(s) == "technician"
  }

  predicate IsMaintenance(s: Staff)
  {
    RoleKey(s) == "maintenance" || RoleKey(s) == "staff-maintenance"
  }

  /** `filterTechnicians`: exactly the technicians, in input order. */
  function FilterTechnicians(staff: seq<Staff>): (r: seq<Staff>)
    ensures forall i :: 0 <= i < |r| ==> r[i] in staff && IsTechnician(r[i])
    ensures forall i :: 0 <= i < |staff| && IsTechnician(staff[i]) ==> staff[i] in r
    ensures IsSubsequence(r, staff) && |r| <= |staff|
    ensures forall x :: multiset(r)[x] == if IsTechnician(x) then multiset(staff)[x] else 0
  {
    FilterMultiset(staff, IsTechnician);
    FilterIsSubsequence(staff, IsTechnician);
    FilterMembers(staff, IsTechnician);
    Filter(staff, IsTechnician)
  }

  /** `filterMaintenance`: exactly the maintenance staff, in input order. */
  function FilterMaintenance(staff: seq<Staff>): (r: seq<Staff>)
    ensures forall i :: 0 <= i < |r| ==> r[i] in staff && IsMaintenance(r[i])
    ensures forall i :: 0 <= i < |staff| && IsMaintenance(staff[i]) ==> staff[i] in r
    ensures IsSubsequence(r, staff) && |r| <= |staff|
    ensures forall x :: multiset(r)[x] == if IsMaintenance(x) then multiset(staff)[x] else 0
  {
    FilterMultiset(staff, IsMaintenance);
    FilterIsSubsequence(staff, IsMaintenance);
    FilterMembers(staff, IsMaintenance);
    Filter(staff, IsMaintenance)
  }

  /** Selecting again from a selection returns it unchanged. */
  lemma SelectorsIdempotent(staff: seq<Staff>)
    ensures FilterTechnicians(FilterTechnicians(staff)) == FilterTechnicians(staff)
    ensures FilterMaintenance(FilterMaintenance(staff)) == FilterMaintenance(staff)
  {
    FilterIdempotent(staff, IsTechnician);
    FilterIdempotent(staff, IsMaintenance);
  }

  /** No staff member is both a technician and maintenance staff. */
  lemma SelectorsDisjoint(staff: seq<Staff>)
    ensures forall s :: s in FilterTechnicians(staff) ==> s !in FilterMaintenance(staff)
  {
    FilterDisjoint(staff, IsTechnician, IsMaintenance);
  }

  /** A member whose role is missing or empty is selected by neither filter. */
  lemma MissingRoleNeverSelected(staff: seq<Staff>, s: Staff)
    requires s.role == None || s.role == Some("")
    ensures s !in FilterTechnicians(staff)
    ensures s !in FilterMaintenance(staff)
  {
  }

  /** Role matching ignores case: "Technician" and "TECHNICIAN" both select. */
  lemma RoleMatchIgnoresCase(s: Staff)
    requires s.role == Some("TECHNICIAN") || s.role == Some("Technician")
    ensures IsTechnician(s) && !IsMaintenance(s)
  {
    assert RoleKey(s) == "technician";
  }
}
