/** The admin members page (`Members`): a fixed member list, a search over
    names and e-mail addresses, and the role badge. */
module Members {
  import opened JsStrings
  import opened Sequences

  /** The role union of the page's `Member` interface. */
  datatype MemberRole = MemberRole | AdminRole | TreasurerRole | VicePresidentRole | PresidentRole

  datatype Member = Member(
    id: string,
    name: string,
    email: string,
    role: MemberRole,
    joinDate: string,
    creditsBalance: int,
    meetingsAttended: int,
    totalTrades: int,
    isActive: bool)

  /** The role's string value. */
  function RoleText(role: MemberRole): string {
    match role
    case MemberRole => "member"
    case AdminRole => "admin"
    case TreasurerRole => "treasurer"
    case VicePresidentRole => "vice-president"
    case PresidentRole => "president"
  }

  /** The six members the page shows. */
  const AllMembers: seq<Member> := [
    Member("1", "John Smith", "john.smith@colorado.edu", PresidentRole, "2023-08-15", 1200, 18, 45, true),
    Member("2", "Sarah Johnson", "sarah.johnson@colorado.edu", VicePresidentRole, "2023-08-15", 1100, 17, 38, true),
    Member("3", "Mike Chen", "mike.chen@colorado.edu", TreasurerRole, "2023-08-20", 950, 16, 52, true),
    Member("4", "Emily Davis", "emily.davis@colorado.edu", AdminRole, "2023-09-01", 800, 14, 29, true),
    Member("5", "Alex Rodriguez", "alex.rodriguez@colorado.edu", MemberRole, "2023-10-15", 600, 12, 23, true),
    Member("6", "Jessica Wong", "jessica.wong@colorado.edu", MemberRole, "2023-11-01", 500, 8, 15, false)
  ]

  /** The search test: the lower-cased term occurs in the lower-cased name
      or the lower-cased e-mail. */
  predicate Matches(m: Member, term: string) {
    Includes(Lower(m.name), Lower(term)) || Includes(Lower(m.email), Lower(term))
  }

  /** `filteredMembers`: every matching member, as often as it occurs. */
  function FilteredMembers(members: seq<Member>, term: string): (r: seq<Member>)
    ensures forall m :: m in r <==> m in members && Matches(m, term)
    ensures forall m :: multiset(r)[m] == if Matches(m, term) then multiset(members)[m] else 0
    decreases |members|
  {
    if members == [] then []
    else
      assert members == [members[0]] + members[1..];
      (if Matches(members[0], term) then [members[0]] else []) + FilteredMembers(members[1..], term)
  }

  /** The empty term matches everyone, so the whole list comes back in its
      order. */
  lemma {:induction false} EmptySearchKeepsAll(members: seq<Member>)
    ensures FilteredMembers(members, "") == members
    decreases |members|
  {
    if members != [] {
      IncludesEmpty(Lower(members[0].name));
      assert Lower("") == "";
      EmptySearchKeepsAll(members[1..]);
      assert members == [members[0]] + members[1..];
    }
  }

  /** The results keep the list order. */
  lemma {:induction false} SearchKeepsOrder(members: seq<Member>, term: string)
    ensures Subsequence(FilteredMembers(members, term), members)
    decreases |members|
  {
    if members != [] {
      SearchKeepsOrder(members[1..], term);
      if Matches(members[0], term) {
        assert FilteredMembers(members, term)[1..] == FilteredMembers(members[1..], term);
      } else {
        assert FilteredMembers(members, term) == FilteredMembers(members[1..], term);
        SubsequenceOfTail(FilteredMembers(members[1..], term), members);
      }
    }
  }

  /** A list whose members all match comes back whole. */
  lemma {:induction false} AllMatchingKept(members: seq<Member>, term: string)
    requires forall m :: m in members ==> Matches(m, term)
    ensures FilteredMembers(members, term) == members
    decreases |members|
  {
    if members != [] {
      var rest := members[1..];
      assert members[0] in members;
      assert forall m :: m in rest ==> m in members;
      AllMatchingKept(rest, term);
      assert FilteredMembers(members, term) == [members[0]] + FilteredMembers(rest, term);
      assert members == [members[0]] + rest;
    }
  }

  /** Searching again with the same term changes nothing. */
  lemma SearchIdempotent(members: seq<Member>, term: string)
    ensures FilteredMembers(FilteredMembers(members, term), term) == FilteredMembers(members, term)
  {
    AllMatchingKept(FilteredMembers(members, term), term);
  }

  /** `variants[role]`: every role has one. */
  function RoleVariant(role: MemberRole): string {
    match role
    case PresidentRole => "default"
    case VicePresidentRole => "secondary"
    case TreasurerRole => "secondary"
    case AdminRole => "outline"
    case MemberRole => "outline"
  }

  /** `colors[role]`: every role has one. */
  function RoleColor(role: MemberRole): string {
    match role
    case PresidentRole => "bg-primary text-primary-foreground"
    case VicePresidentRole => "bg-secondary text-secondary-foreground"
    case TreasurerRole => "bg-secondary text-secondary-foreground"
    case AdminRole => "border-primary text-primary"
    case MemberRole => ""
  }

  /** The badge text: the first `-` made a space, then each word start
      capitalised. */
  function RoleLabel(role: string): string {
    CapitaliseWordStarts(ReplaceFirst(role, '-', ' '))
  }

  /** The label differs from the role with its first hyphen replaced only
      in the case of letters at word starts. */
  lemma RoleLabelIsRoleText(role: string)
    ensures |RoleLabel(role)| == |role|
    ensures Lower(RoleLabel(role)) == Lower(ReplaceFirst(role, '-', ' '))
  {
    CapitaliseWordStartsSpec(ReplaceFirst(role, '-', ' '));
  }

  lemma ReplaceVicePresident()
    ensures ReplaceFirst("vice-president", '-', ' ') == "vice president"
  {
    assert "vice-president" == "vice" + ['-'] + "president";
    ReplaceFirstSplit("vice", "president", '-', ' ');
    assert "vice" + [' '] + "president" == "vice president";
  }

  lemma CapitaliseVicePresident()
    ensures CapitaliseWordStarts("vice president") == "Vice President"
  {
    var s := "vice president";
    var c := CapitaliseWordStarts(s);
    assert c[0] == 'V' && c[5] == 'P';
    forall i | 0 <= i < 14 && i != 0 && i != 5 ensures c[i] == s[i] {
      assert !WordStart(s, i);
    }
  }

  /** "vice-president" is labelled "Vice President". */
  lemma VicePresidentLabel()
    ensures RoleLabel(RoleText(VicePresidentRole)) == "Vice President"
  {
    ReplaceVicePresident();
    CapitaliseVicePresident();
  }

  /** Only the first hyphen becomes a space: hyphenated words further on
      keep their hyphen (and `\b` still capitalises after it). */
  lemma OnlyFirstHyphenReplaced()
    ensures RoleLabel("a-b-c") == "A B-C"
  {
    assert ReplaceFirst("a-b-c", '-', ' ') == "a b-c" by {
      assert "a-b-c"[1..] == "-b-c";
    }
    var s := "a b-c";
    var c := CapitaliseWordStarts(s);
    assert WordStart(s, 0) && WordStart(s, 2) && WordStart(s, 4);
    assert !WordStart(s, 1) && !WordStart(s, 3);
    assert c == "A B-C";
  }
}
