/** The team screen (utdisa/Views/TeamRosterView.swift): the seeded roster,
    its three sections, and a member card's tap-to-expand state. */
module TeamRoster {
  import opened Base
  import opened Text
  import opened Records

  const EXECUTIVE_TITLES: seq<string> :=
    ["President", "Vice President", "General Secretary", "Treasurer", "Public Relations Officer"]
  const EVENTS_TEAM := "Events & Logistics"

  predicate IsExecutive(m: TeamMember) {
    m.position in EXECUTIVE_TITLES
  }

  predicate IsEventsTeam(m: TeamMember) {
    Contains(m.position, EVENTS_TEAM)
  }

  predicate IsOfficer(m: TeamMember) {
    !IsExecutive(m) && !IsEventsTeam(m)
  }

  /** Swift's `filter`: the elements that satisfy `keep`, in their order. */
  function Filter<T>(s: seq<T>, keep: T -> bool): (r: seq<T>)
    ensures |r| <= |s|
    ensures forall i :: 0 <= i < |r| ==> keep(r[i])
    decreases |s|
  {
    if s == [] then []
    else (if keep(s[0]) then [s[0]] else []) + Filter(s[1..], keep)
  }

  /** An element is in the filtered sequence exactly when it is in the input
      and satisfies the predicate. */
  lemma {:induction false} FilterMembers<T>(s: seq<T>, keep: T -> bool)
    ensures forall i :: 0 <= i < |Filter(s, keep)| ==> Filter(s, keep)[i] in s
    ensures forall i :: 0 <= i < |s| && keep(s[i]) ==> s[i] in Filter(s, keep)
    decreases |s|
  {
    if s != [] {
      FilterMembers(s[1..], keep);
      var head := if keep(s[0]) then [s[0]] else [];
      var rest := Filter(s[1..], keep);
      assert Filter(s, keep) == head + rest;
      forall i | 0 <= i < |Filter(s, keep)| ensures Filter(s, keep)[i] in s {
        if i >= |head| {
          assert Filter(s, keep)[i] == rest[i - |head|];
        }
      }
      forall i | 0 <= i < |s| && keep(s[i]) ensures s[i] in Filter(s, keep) {
        if i > 0 {
          assert s[i] == s[1..][i - 1];
        }
      }
    }
  }

  /** Filtering keeps order: it distributes over concatenation. */
  lemma {:induction false} FilterAppend<T>(s: seq<T>, t: seq<T>, keep: T -> bool)
    ensures Filter(s + t, keep) == Filter(s, keep) + Filter(t, keep)
    decreases |s|
  {
    if s != [] {
      assert (s + t)[1..] == s[1..] + t;
      FilterAppend(s[1..], t, keep);
    } else {
      assert s + t == t;
    }
  }

  function ExecutiveBoard(roster: seq<TeamMember>): seq<TeamMember> {
    Filter(roster, IsExecutive)
  }

  function Officers(roster: seq<TeamMember>): seq<TeamMember> {
    Filter(roster, IsOfficer)
  }

  function EventsTeam(roster: seq<TeamMember>): seq<TeamMember> {
    Filter(roster, IsEventsTeam)
  }

  /** No executive title mentions the events team. */
  lemma ExecutiveIsNotEventsTeam(m: TeamMember)
    requires IsExecutive(m)
    ensures !IsEventsTeam(m)
  {
    var p := m.position;
    assert p == "President" || p == "Vice President" || p == "General Secretary"
        || p == "Treasurer" || p == "Public Relations Officer";
    assert 'E' !in p;
    ContainsNeedsFirstChar(p, EVENTS_TEAM);
  }

  /** Every member is in exactly one section. */
  lemma SectionsExclusive(m: TeamMember)
    ensures IsExecutive(m) || IsOfficer(m) || IsEventsTeam(m)
    ensures !(IsExecutive(m) && IsOfficer(m)) && !(IsOfficer(m) && IsEventsTeam(m))
    ensures !(IsExecutive(m) && IsEventsTeam(m))
  {
    if IsExecutive(m) { ExecutiveIsNotEventsTeam(m); }
  }

  /** Three predicates of which exactly one holds for every element split any
      sequence: their filters together hold each element as often as it does. */
  lemma {:induction false} FilterPartition<T>(s: seq<T>, p: T -> bool, q: T -> bool, r: T -> bool)
    requires forall x :: (p(x) || q(x) || r(x)) && !(p(x) && q(x)) && !(q(x) && r(x)) && !(p(x) && r(x))
    ensures multiset(Filter(s, p)) + multiset(Filter(s, q)) + multiset(Filter(s, r)) == multiset(s)
    decreases |s|
  {
    if s != [] {
      FilterPartition(s[1..], p, q, r);
      assert s == [s[0]] + s[1..];
    }
  }

  /** For any roster the three sections split it: together they hold each
      member exactly as often as the roster does. */
  lemma SectionsPartition(roster: seq<TeamMember>)
    ensures multiset(ExecutiveBoard(roster)) + multiset(Officers(roster)) + multiset(EventsTeam(roster))
         == multiset(roster)
  {
    forall m
      ensures (IsExecutive(m) || IsOfficer(m) || IsEventsTeam(m)) && !(IsExecutive(m) && IsOfficer(m))
           && !(IsOfficer(m) && IsEventsTeam(m)) && !(IsExecutive(m) && IsEventsTeam(m))
    {
      SectionsExclusive(m);
    }
    FilterPartition(roster, IsExecutive, IsOfficer, IsEventsTeam);
  }

  /** No member appears in two sections. */
  lemma SectionsDisjoint(roster: seq<TeamMember>)
    ensures forall m :: m in ExecutiveBoard(roster) ==> m !in Officers(roster) && m !in EventsTeam(roster)
    ensures forall m :: m in Officers(roster) ==> m !in EventsTeam(roster)
  {
    forall m | m in ExecutiveBoard(roster) ensures m !in Officers(roster) && m !in EventsTeam(roster) {
      SectionsExclusive(m);
    }
  }

  /** Filtering three blocks whose elements the predicate treats alike. */
  lemma FilterBlocks<T>(a: seq<T>, b: seq<T>, c: seq<T>, keep: T -> bool, ka: bool, kb: bool, kc: bool)
    requires forall i :: 0 <= i < |a| ==> keep(a[i]) == ka
    requires forall i :: 0 <= i < |b| ==> keep(b[i]) == kb
    requires forall i :: 0 <= i < |c| ==> keep(c[i]) == kc
    ensures Filter(a + b + c, keep) == (if ka then a else []) + (if kb then b else []) + (if kc then c else [])
  {
    FilterAppend(a + b, c, keep);
    FilterAppend(a, b, keep);
    FilterUniform(a, keep, ka);
    FilterUniform(b, keep, kb);
    FilterUniform(c, keep, kc);
  }

  lemma {:induction false} FilterUniform<T>(s: seq<T>, keep: T -> bool, k: bool)
    requires forall i :: 0 <= i < |s| ==> keep(s[i]) == k
    ensures Filter(s, keep) == (if k then s else [])
    decreases |s|
  {
    if s != [] {
      FilterUniform(s[1..], keep, k);
    }
  }

  /** The seeded roster, column by column and in source order: five board
      members, twelve officers and the two events-team members. */
  const SEEDED_NAMES: seq<string> := [
    "Pranav Vishnuvajjhula", "Teeya Kapur", "Jay Tarde", "Nimanshu Jain", "Saarth Shetty",
    "Shreyas Agrawal", "Sana Dharani", "Mohammed Zumar Ali", "Krina Prajapati", "Amulya Vangari",
    "Sakitharini Karthikeyan", "Ashwin Kashyap", "Kush Vora", "Mrunal Bhagyawant", "Neel Dave",
    "Kunal Bipin", "Jagannatha Shah",
    "Gaurica Desai", "Parag Garg"]

  const OFFICER_POSITIONS: seq<string> := [
    "Technology Officer", "Dance Officer", "Music Officer", "SOC Officer", "Social Media Officer",
    "Anchoring Officer", "Photography Officer", "Sports Officer", "Community Manager",
    "Marketing Officer", "Outreach Officer", "Outreach Officer"]

  const SEEDED_POSITIONS: seq<string> :=
    EXECUTIVE_TITLES + OFFICER_POSITIONS + ["Events & Logistics Officer", "Events & Logistics Officer"]

  const SEEDED_EMAILS: seq<string> := [
    "pranav.vishnuvajjhula@utdallas.edu", "teeya.kapur@utdallas.edu", "jay.tarde@utdallas.edu",
    "nimanshu.jain@utdallas.edu", "saarth.shetty@utdallas.edu",
    "shreyas.agrawal@utdallas.edu", "sana.dharani@utdallas.edu", "mohammad.isa@utdallas.edu",
    "krina.prajapati@utdallas.edu", "amulya.vangari@utdallas.edu",
    "sakitharini.karthikeyan@utdallas.edu", "ashwin.kashyap@utdallas.edu", "kush.vora@utdallas.edu",
    "mrunal.bhagyawant@utdallas.edu", "neel.dave@utdallas.edu", "kunal.bipin@utdallas.edu",
    "jagannatha.shah@utdallas.edu",
    "gaurica.desai@utdallas.edu", "parag.garg@utdallas.edu"]

  const SEEDED_BIOS: seq<string> := [
    "Leading UTD's Indian Students Association", "Supporting ISA's mission and initiatives",
    "Managing ISA's administrative affairs", "Managing ISA's finances",
    "Managing public relations and communications",
    "Managing ISA's technical infrastructure", "Coordinating dance events and performances",
    "Managing musical events and performances", "Managing Student Organization Center relations",
    "Managing ISA's social media presence", "Leading event hosting and presentations",
    "Capturing ISA's memorable moments", "Organizing sports events and tournaments",
    "Building and nurturing the ISA community", "Leading ISA's marketing initiatives",
    "Managing external relations and partnerships", "Managing external relations and partnerships",
    "Coordinating ISA events and logistics", "Coordinating ISA events and logistics"]

  /** The roster the screen is seeded with; `ids` stands for the `UUID()`
      each entry draws. No entry has a LinkedIn URL. */
  function SeededRoster(ids: seq<Uuid>): (r: seq<TeamMember>)
    requires |ids| == 19
    ensures |r| == 19
    ensures forall i :: 0 <= i < 19 ==> r[i].position == SEEDED_POSITIONS[i] && r[i].id == ids[i]
  {
    seq(19, i requires 0 <= i < 19 =>
      TeamMember(ids[i], SEEDED_NAMES[i], SEEDED_POSITIONS[i], SEEDED_EMAILS[i], None, SEEDED_BIOS[i]))
  }

  lemma OfficerPosition(k: int)
    requires 0 <= k < |OFFICER_POSITIONS|
    ensures 'E' !in OFFICER_POSITIONS[k] && OFFICER_POSITIONS[k] !in EXECUTIVE_TITLES
  {
  }

  lemma OfficerTitle(m: TeamMember, k: int)
    requires 0 <= k < |OFFICER_POSITIONS| && m.position == OFFICER_POSITIONS[k]
    ensures IsOfficer(m)
  {
    OfficerPosition(k);
    ContainsNeedsFirstChar(m.position, EVENTS_TEAM);
  }

  lemma EventsTitle(m: TeamMember)
    requires m.position == "Events & Logistics Officer"
    ensures IsEventsTeam(m) && !IsExecutive(m)
  {
    assert OccursAt(m.position, EVENTS_TEAM, 0);
    ContainsIffOccurs(m.position, EVENTS_TEAM);
  }

  /** Where each seeded entry belongs. */
  lemma SeededKinds(ids: seq<Uuid>)
    requires |ids| == 19
    ensures forall i :: 0 <= i < 5 ==> IsExecutive(SeededRoster(ids)[i]) && !IsOfficer(SeededRoster(ids)[i])
    ensures forall i :: 0 <= i < 5 ==> !IsEventsTeam(SeededRoster(ids)[i])
    ensures forall i :: 5 <= i < 17 ==> IsOfficer(SeededRoster(ids)[i])
    ensures forall i :: 17 <= i < 19 ==> IsEventsTeam(SeededRoster(ids)[i]) && !IsExecutive(SeededRoster(ids)[i])
  {
    var r := SeededRoster(ids);
    forall i | 0 <= i < 5 ensures IsExecutive(r[i]) && !IsEventsTeam(r[i]) {
      assert r[i].position == EXECUTIVE_TITLES[i];
      ExecutiveIsNotEventsTeam(r[i]);
    }
    forall i | 5 <= i < 17 ensures IsOfficer(r[i]) {
      assert r[i].position == OFFICER_POSITIONS[i - 5];
      OfficerTitle(r[i], i - 5);
    }
    forall i | 17 <= i < 19 ensures IsEventsTeam(r[i]) && !IsExecutive(r[i]) {
      assert r[i].position == "Events & Logistics Officer";
      EventsTitle(r[i]);
    }
  }

  /** A roster laid out as board members, then officers, then events-team
      members has exactly those three blocks as its sections. */
  lemma BlockSections(board: seq<TeamMember>, officers: seq<TeamMember>, events: seq<TeamMember>)
    requires forall i :: 0 <= i < |board| ==> IsExecutive(board[i]) && !IsOfficer(board[i]) && !IsEventsTeam(board[i])
    requires forall i :: 0 <= i < |officers| ==> IsOfficer(officers[i])
    requires forall i :: 0 <= i < |events| ==> IsEventsTeam(events[i]) && !IsExecutive(events[i])
    ensures ExecutiveBoard(board + officers + events) == board
    ensures Officers(board + officers + events) == officers
    ensures EventsTeam(board + officers + events) == events
  {
    assert forall i :: 0 <= i < |officers| ==> !IsExecutive(officers[i]) && !IsEventsTeam(officers[i]);
    assert forall i :: 0 <= i < |events| ==> !IsOfficer(events[i]);
    FilterBlocks(board, officers, events, IsExecutive, true, false, false);
    FilterBlocks(board, officers, events, IsOfficer, false, true, false);
    FilterBlocks(board, officers, events, IsEventsTeam, false, false, true);
  }

  /** The seeded roster lists the board first, then the officers, then the
      events team, so the sections are its first 5, next 12 and last 2 entries. */
  lemma SeededSections(ids: seq<Uuid>)
    requires |ids| == 19
    ensures ExecutiveBoard(SeededRoster(ids)) == SeededRoster(ids)[..5]
    ensures Officers(SeededRoster(ids)) == SeededRoster(ids)[5..17]
    ensures EventsTeam(SeededRoster(ids)) == SeededRoster(ids)[17..]
    ensures |ExecutiveBoard(SeededRoster(ids))| == 5 && |Officers(SeededRoster(ids))| == 12
    ensures |EventsTeam(SeededRoster(ids))| == 2
  {
    SeededKinds(ids);
    var r := SeededRoster(ids);
    var board, officers, events := r[..5], r[5..17], r[17..];
    assert r == board + officers + events;
    forall i | 0 <= i < |board|
      ensures IsExecutive(board[i]) && !IsOfficer(board[i]) && !IsEventsTeam(board[i])
    {
      assert board[i] == r[i];
    }
    forall i | 0 <= i < |officers| ensures IsOfficer(officers[i]) {
      assert officers[i] == r[i + 5];
    }
    forall i | 0 <= i < |events| ensures IsEventsTeam(events[i]) && !IsExecutive(events[i]) {
      assert events[i] == r[i + 17];
    }
    BlockSections(board, officers, events);
  }

  /** What a member card shows: name and position, and the bio only when expanded. */
  function CardText(m: TeamMember, isExpanded: bool): (r: seq<string>)
    ensures |r| == (if isExpanded then 3 else 2)
    ensures r[..2] == [m.name, m.position]
    ensures isExpanded ==> r[2] == m.bio
  {
    [m.name, m.position] + (if isExpanded then [m.bio] else [])
  }

  class TeamMemberCard {
    const member: TeamMember
    var isExpanded: bool

    constructor (member: TeamMember)
      ensures this.member == member && !isExpanded
    {
      this.member := member;
      isExpanded := false;
    }

    /** A tap flips the expanded state. */
    method Tap()
      modifies this
      ensures isExpanded == !old(isExpanded)
    {
      isExpanded := !isExpanded;
    }
  }
}
