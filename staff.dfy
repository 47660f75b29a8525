/**
  The staff page: the staff list, its four summary figures and the
  add-staff dialog flag.
 */
module Staff {
  import opened Lists
  import opened Numbers
  import opened Badges

  datatype StaffMember = StaffMember(
    id: int,
    name: string,
    role: string,
    email: string,
    assignedClients: nat,
    avgAdherence: nat,
    avgProgress: nat,
    status: string)

  /** `mockStaff`. */
  function MockStaff(): seq<StaffMember>
  {
    [ StaffMember(1, "Jessica Smith", "Senior Trainer", "jessica@example.com", 32, 85, 82, "active"),
      StaffMember(2, "Tom Anderson", "Trainer", "tom@example.com", 28, 78, 75, "active"),
      StaffMember(3, "Maria Garcia", "Nutritionist", "maria@example.com", 45, 88, 86, "active"),
      StaffMember(4, "David Chen", "Trainer", "david@example.com", 24, 72, 70, "inactive") ]
  }

  function ActiveMatcher(): StaffMember -> bool
  {
    (m: StaffMember) => m.status == "active"
  }

  function InactiveMatcher(): StaffMember -> bool
  {
    (m: StaffMember) => m.status != "active"
  }

  /** The "Total Staff" figure: every member, whatever the status, so the
      active and the inactive members together. */
  function TotalStaff(staff: seq<StaffMember>): (r: nat)
    ensures r == |Filter(ActiveMatcher(), staff)| + |Filter(InactiveMatcher(), staff)|
  {
    FilterComplement(ActiveMatcher(), InactiveMatcher(), staff);
    |staff|
  }

  function AssignedClients(staff: seq<StaffMember>): (r: seq<nat>)
    ensures |r| == |staff| && forall i :: 0 <= i < |staff| ==> r[i] == staff[i].assignedClients
  {
    seq(|staff|, i requires 0 <= i < |staff| => staff[i].assignedClients)
  }

  function Adherences(staff: seq<StaffMember>): (r: seq<nat>)
    ensures |r| == |staff| && forall i :: 0 <= i < |staff| ==> r[i] == staff[i].avgAdherence
  {
    seq(|staff|, i requires 0 <= i < |staff| => staff[i].avgAdherence)
  }

  function Progresses(staff: seq<StaffMember>): (r: seq<nat>)
    ensures |r| == |staff| && forall i :: 0 <= i < |staff| ==> r[i] == staff[i].avgProgress
  {
    seq(|staff|, i requires 0 <= i < |staff| => staff[i].avgProgress)
  }

  /** The "Total Clients" figure: the sum of every member's assigned clients. */
  function TotalClients(staff: seq<StaffMember>): (r: nat)
    ensures staff == [] ==> r == 0
    ensures |staff| == 1 ==> r == staff[0].assignedClients
  {
    var counts := AssignedClients(staff);
    if |staff| == 1 then
      SumSingle(counts);
      Sum(counts)
    else Sum(counts)
  }

  /** Totals add up over a split of the list. */
  lemma TotalClientsAppend(a: seq<StaffMember>, b: seq<StaffMember>)
    ensures TotalClients(a + b) == TotalClients(a) + TotalClients(b)
  {
    assert AssignedClients(a + b) == AssignedClients(a) + AssignedClients(b);
    SumAppend(AssignedClients(a), AssignedClients(b));
  }

  /** The "Avg. Adherence" figure: the mean of the members' adherence rounded
      half up (within half a point of sum / count);
      the list must be non-empty because the sum is divided by its length. */
  function AvgAdherence(staff: seq<StaffMember>): (r: nat)
    requires |staff| > 0
    ensures var n, total := |staff|, Sum(Adherences(staff));
      n * (2 * r) <= 2 * total + n < n * (2 * r + 2)
  {
    Average(Adherences(staff))
  }

  /** The "Avg. Progress" figure, likewise: the mean progress rounded half up. */
  function AvgProgress(staff: seq<StaffMember>): (r: nat)
    requires |staff| > 0
    ensures var n, total := |staff|, Sum(Progresses(staff));
      n * (2 * r) <= 2 * total + n < n * (2 * r + 2)
  {
    Average(Progresses(staff))
  }

  /** Each average lies between bounds of its own field, in particular
      between that field's least and greatest value. */
  lemma AveragesBetween(staff: seq<StaffMember>, loA: int, hiA: int, loP: int, hiP: int)
    requires |staff| > 0
    requires forall i :: 0 <= i < |staff| ==> loA <= staff[i].avgAdherence <= hiA
    requires forall i :: 0 <= i < |staff| ==> loP <= staff[i].avgProgress <= hiP
    ensures loA <= AvgAdherence(staff) <= hiA
    ensures loP <= AvgProgress(staff) <= hiP
  {
    AverageBetween(Adherences(staff), loA, hiA);
    AverageBetween(Progresses(staff), loP, hiP);
  }

  /** The fixture's figures: 4 members, of whom id 4 is inactive, 129
      clients, 323/4 rounded to 81 and 313/4 rounded to 78. */
  lemma FixtureFigures()
    ensures TotalStaff(MockStaff()) == 4 && MockStaff()[3].status == "inactive"
    ensures TotalClients(MockStaff()) == 129
    ensures AvgAdherence(MockStaff()) == 81
    ensures AvgProgress(MockStaff()) == 78
  {
    FixtureCount();
    FixtureTotal();
    FixtureAverages();
  }

  lemma FixtureCount()
    ensures TotalStaff(MockStaff()) == 4 && MockStaff()[3].status == "inactive"
  {
  }

  lemma FixtureTotal()
    ensures TotalClients(MockStaff()) == 129
  {
    FixtureColumns();
    SumOfFour(32, 28, 45, 24);
  }

  lemma FixtureAverages()
    ensures AvgAdherence(MockStaff()) == 81
    ensures AvgProgress(MockStaff()) == 78
  {
    FixtureColumns();
    SumOfFour(85, 78, 88, 72);
    SumOfFour(82, 75, 86, 70);
  }

  lemma FixtureColumns()
    ensures AssignedClients(MockStaff()) == [32, 28, 45, 24]
    ensures Adherences(MockStaff()) == [85, 78, 88, 72]
    ensures Progresses(MockStaff()) == [82, 75, 86, 70]
  {
  }

  /** A member's status badge: default for "active", secondary otherwise. */
  function StatusBadge(status: string): (r: Variant)
    ensures r == Default <==> status == "active"
    ensures r != Default ==> r == Secondary
  {
    if status == "active" then Default else Secondary
  }

  /** `StaffPage`'s state: whether the add-staff dialog is open. */
  class StaffPage {
    var addStaffDialogOpen: bool

    constructor ()
      ensures !addStaffDialogOpen
    {
      addStaffDialogOpen := false;
    }

    /** The dialog's `onOpenChange`, fired by the "Add Staff" trigger and by dismissal. */
    method SetDialogOpen(open: bool)
      modifies this
      ensures addStaffDialogOpen == open
    {
      addStaffDialogOpen := open;
    }

    /** "Cancel" closes the dialog. */
    method Cancel()
      modifies this
      ensures !addStaffDialogOpen
    {
      addStaffDialogOpen := false;
    }

    /** "Send Invitation" closes the dialog too; no invitation is kept. */
    method SendInvitation()
      modifies this
      ensures !addStaffDialogOpen
    {
      addStaffDialogOpen := false;
    }
  }
}
