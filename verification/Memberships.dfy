/** The directory's group memberships: one pass over all groups and members, against a lookup for each user. */
module Memberships {
  import opened Common

  type Name = string

  /** A group and its members, as the pages of the member listing return them. An entry may lack its name. */
  datatype Group = Group(name: Option<Name>, pages: seq<seq<Option<Name>>>)

  /** The pages of the group listing. */
  type Directory = seq<seq<Group>>

  predicate Given(name: Option<Name>) {
    name != None && name.value != ""
  }

  type Index = map<Name, seq<Name>>

  function Of(m: Index, u: Name): seq<Name> {
    if u in m then m[u] else []
  }

  // ---- what the directory says ----------------------------------------------

  /** How often a group lists the user. */
  function Mentions(members: seq<Option<Name>>, u: Name): nat {
    if members == [] then 0
    else Mentions(members[..|members| - 1], u) + (if members[|members| - 1] == Some(u) then 1 else 0)
  }

  function Repeat(g: Name, n: nat): seq<Name> {
    if n == 0 then [] else Repeat(g, n - 1) + [g]
  }

  /** The groups that list the user, in group order, as often as they do. */
  function Listed(groups: seq<Group>, u: Name): seq<Name> {
    if groups == [] then []
    else
      var g := groups[|groups| - 1];
      Listed(groups[..|groups| - 1], u)
      + (if Given(g.name) then Repeat(g.name.value, Mentions(Flat(g.pages), u)) else [])
  }

  lemma {:induction false} MentionedIff(members: seq<Option<Name>>, u: Name)
    ensures Mentions(members, u) > 0 <==> Some(u) in members
  {
    if members == [] {
    } else {
      MentionedIff(members[..|members| - 1], u);
      assert members == members[..|members| - 1] + [members[|members| - 1]];
    }
  }

  lemma {:induction false} RepeatMembers(g: Name, n: nat, x: Name)
    ensures x in Repeat(g, n) <==> n > 0 && x == g
  {
    if n > 0 { RepeatMembers(g, n - 1, x); }
  }

  /** A user is given exactly the named groups that list the user, whatever is missing or repeated. */
  lemma {:induction false} ListedIff(groups: seq<Group>, u: Name, g: Name)
    ensures g in Listed(groups, u) <==>
            exists i :: 0 <= i < |groups| && groups[i].name == Some(g) && g != "" && Some(u) in Flat(groups[i].pages)
  {
    if groups == [] {
    } else {
      var front, last := groups[..|groups| - 1], groups[|groups| - 1];
      ListedIff(front, u, g);
      MentionedIff(Flat(last.pages), u);
      if Given(last.name) { RepeatMembers(last.name.value, Mentions(Flat(last.pages), u), g); }
      assert forall i :: 0 <= i < |front| ==> front[i] == groups[i];
    }
  }

  // ---- the bounded pass -----------------------------------------------------

  /** The groups of a user after the groups in `done` and some members of the current one. */
  function Expected(done: seq<Group>, current: Name, members: seq<Option<Name>>, u: Name): seq<Name> {
    if u == "" then [] else Listed(done, u) + Repeat(current, Mentions(members, u))
  }

  ghost predicate Recorded(m: Index, done: seq<Group>, current: Name, members: seq<Option<Name>>) {
    forall u :: Of(m, u) == Expected(done, current, members, u)
  }

  function Added(m: Index, member: Option<Name>, g: Name): Index {
    if Given(member) then m[member.value := Of(m, member.value) + [g]] else m
  }

  lemma OneMoreMember(done: seq<Group>, current: Name, members: seq<Option<Name>>, member: Option<Name>, u: Name)
    ensures Expected(done, current, members + [member], u)
            == Expected(done, current, members, u) + (if u != "" && member == Some(u) then [current] else [])
  {
    assert (members + [member])[..|members|] == members;
  }

  lemma RecordMember(m: Index, done: seq<Group>, current: Name, members: seq<Option<Name>>, member: Option<Name>)
    requires Recorded(m, done, current, members)
    ensures Recorded(Added(m, member, current), done, current, members + [member])
  {
    forall u ensures Of(Added(m, member, current), u) == Expected(done, current, members + [member], u) {
      OneMoreMember(done, current, members, member, u);
      assert Of(m, u) == Expected(done, current, members, u);
    }
  }

  lemma OneMoreGroup(done: seq<Group>, g: Group, u: Name)
    ensures Expected(done + [g], "", [], u)
            == if Given(g.name) then Expected(done, g.name.value, Flat(g.pages), u) else Expected(done, "", [], u)
  {
    assert (done + [g])[..|done|] == done;
  }

  lemma RecordGroup(m: Index, done: seq<Group>, g: Group)
    requires if Given(g.name) then Recorded(m, done, g.name.value, Flat(g.pages)) else Recorded(m, done, "", [])
    ensures Recorded(m, done + [g], "", [])
  {
    forall u ensures Of(m, u) == Expected(done + [g], "", [], u) {
      OneMoreGroup(done, g, u);
    }
  }

  lemma NoMembersYet(m: Index, done: seq<Group>, current: Name)
    requires Recorded(m, done, "", [])
    ensures Recorded(m, done, current, [])
  {
    forall u ensures Of(m, u) == Expected(done, current, [], u) {
      assert Of(m, u) == Expected(done, "", [], u);
    }
  }

  lemma FlatStep<T>(pages: seq<seq<T>>, p: nat)
    requires p < |pages|
    ensures Flat(pages[..p + 1]) == Flat(pages[..p]) + pages[p]
  {
    assert pages[..p + 1][..p] == pages[..p];
  }

  /** The members on one page of one group. */
  method RecordPage(memberships: Index, g: Name, page: seq<Option<Name>>, ghost done: seq<Group>,
                    ghost seen: seq<Option<Name>>)
    returns (m: Index)
    requires Recorded(memberships, done, g, seen)
    ensures Recorded(m, done, g, seen + page)
  {
    m := memberships;
    var j := 0;
    assert seen + page[..0] == seen;
    while j < |page|
      invariant 0 <= j <= |page| && Recorded(m, done, g, seen + page[..j])
    {
      RecordMember(m, done, g, seen + page[..j], page[j]);
      assert seen + page[..j] + [page[j]] == seen + page[..j + 1];
      m := Added(m, page[j], g);
      j := j + 1;
    }
    assert page[..j] == page;
  }

  /** All members of one group. */
  method RecordMembers(memberships: Index, g: Group, ghost done: seq<Group>) returns (m: Index)
    requires Given(g.name) && Recorded(memberships, done, "", [])
    ensures Recorded(m, done, g.name.value, Flat(g.pages))
  {
    m := memberships;
    NoMembersYet(m, done, g.name.value);
    var p := 0;
    while p < |g.pages|
      invariant 0 <= p <= |g.pages| && Recorded(m, done, g.name.value, Flat(g.pages[..p]))
    {
      FlatStep(g.pages, p);
      m := RecordPage(m, g.name.value, g.pages[p], done, Flat(g.pages[..p]));
      p := p + 1;
    }
    assert g.pages[..p] == g.pages;
  }

  method RecordGroups(memberships: Index, groups: seq<Group>, ghost done: seq<Group>) returns (m: Index)
    requires Recorded(memberships, done, "", [])
    ensures Recorded(m, done + groups, "", [])
  {
    m := memberships;
    var i := 0;
    assert done + groups[..0] == done;
    while i < |groups|
      invariant 0 <= i <= |groups| && Recorded(m, done + groups[..i], "", [])
    {
      var g := groups[i];
      if Given(g.name) {
        m := RecordMembers(m, g, done + groups[..i]);
      }
      RecordGroup(m, done + groups[..i], g);
      assert done + groups[..i] + [g] == done + groups[..i + 1];
      i := i + 1;
    }
    assert groups[..i] == groups;
  }

  /** One pass over the group pages; each named group's members are read in full before the next group. */
  method GroupMemberships(directory: Directory) returns (memberships: Index)
    ensures forall u :: Of(memberships, u) == if u == "" then [] else Listed(Flat(directory), u)
  {
    memberships := map[];
    var d := 0;
    while d < |directory|
      invariant 0 <= d <= |directory| && Recorded(memberships, Flat(directory[..d]), "", [])
    {
      FlatStep(directory, d);
      memberships := RecordGroups(memberships, directory[d], Flat(directory[..d]));
      d := d + 1;
    }
    assert directory[..d] == directory;
    forall u ensures Of(memberships, u) == if u == "" then [] else Listed(Flat(directory), u) {
      assert Of(memberships, u) == Expected(Flat(directory), "", [], u);
    }
  }

  // ---- against the lookup for one user --------------------------------------

  ghost predicate NoRepeats(g: Group) {
    forall u :: Mentions(Flat(g.pages), u) <= 1
  }

  /** Group names are given and distinct, and no group lists a member twice: what the directory guarantees. */
  ghost predicate Regular(groups: seq<Group>) {
    && (forall i :: 0 <= i < |groups| ==> Given(groups[i].name))
    && (forall i, j :: 0 <= i < j < |groups| ==> groups[i].name != groups[j].name)
    && (forall i :: 0 <= i < |groups| ==> NoRepeats(groups[i]))
  }

  predicate Lists(g: Group, u: Name) {
    Some(u) in Flat(g.pages)
  }

  /** The groups containing the user, in group order. */
  function GroupsOf(groups: seq<Group>, u: Name): seq<Name> {
    if groups == [] then []
    else
      var g := groups[|groups| - 1];
      GroupsOf(groups[..|groups| - 1], u) + (if Lists(g, u) && Given(g.name) then [g.name.value] else [])
  }

  lemma RepeatAtMostOnce(g: Name, n: nat)
    requires n <= 1
    ensures Repeat(g, n) == if n == 1 then [g] else []
  {
    assert Repeat(g, 0) == [];
  }

  lemma {:induction false} ListedIsGroupsOf(groups: seq<Group>, u: Name)
    requires Regular(groups)
    ensures Listed(groups, u) == GroupsOf(groups, u)
  {
    if groups == [] {
    } else {
      var g := groups[|groups| - 1];
      ListedIsGroupsOf(groups[..|groups| - 1], u);
      MentionedIff(Flat(g.pages), u);
      assert NoRepeats(g);
      RepeatAtMostOnce(g.name.value, Mentions(Flat(g.pages), u));
    }
  }

  lemma {:induction false} GroupsOfMembers(groups: seq<Group>, u: Name, n: Name)
    requires forall i :: 0 <= i < |groups| ==> Given(groups[i].name)
    ensures n in GroupsOf(groups, u)
            <==> exists i :: 0 <= i < |groups| && groups[i].name == Some(n) && Lists(groups[i], u)
  {
    if groups == [] {
    } else {
      var front := groups[..|groups| - 1];
      GroupsOfMembers(front, u, n);
      if i :| 0 <= i < |front| && front[i].name == Some(n) && Lists(front[i], u) { assert groups[i] == front[i]; }
      if i :| 0 <= i < |groups| && groups[i].name == Some(n) && Lists(groups[i], u) {
        assert i < |front| ==> groups[i] == front[i];
      }
    }
  }

  lemma {:induction false} GroupsOfDistinct(groups: seq<Group>, u: Name)
    requires forall i :: 0 <= i < |groups| ==> Given(groups[i].name)
    requires forall i, j :: 0 <= i < j < |groups| ==> groups[i].name != groups[j].name
    ensures forall i, j :: 0 <= i < j < |GroupsOf(groups, u)| ==> GroupsOf(groups, u)[i] != GroupsOf(groups, u)[j]
  {
    if groups == [] {
    } else {
      var front, g := groups[..|groups| - 1], groups[|groups| - 1];
      GroupsOfDistinct(front, u);
      GroupsOfMembers(front, u, g.name.value);
    }
  }

  /**
   * On a regular directory the pass gives every user exactly the groups that contain them, once each, in group order.
   */
  lemma EachGroupOnce(groups: seq<Group>, u: Name)
    requires Regular(groups)
    ensures Listed(groups, u) == GroupsOf(groups, u)
    ensures forall n :: n in GroupsOf(groups, u) <==>
              exists i :: 0 <= i < |groups| && groups[i].name == Some(n) && Lists(groups[i], u)
    ensures forall i, j :: 0 <= i < j < |GroupsOf(groups, u)| ==> GroupsOf(groups, u)[i] != GroupsOf(groups, u)[j]
  {
    ListedIsGroupsOf(groups, u);
    forall n {
      GroupsOfMembers(groups, u, n);
    }
    GroupsOfDistinct(groups, u);
  }

  /** The lookup for one user reads the first page of the user's groups, and no further one. */
  function GroupsFor(pages: seq<seq<Name>>): seq<Name> {
    if pages == [] then [] else pages[0]
  }

  /** What the directory promises of a user's pages: over all of them the user's groups, once each, in any order. */
  ghost predicate Describes(pages: seq<seq<Name>>, groups: seq<Group>, u: Name) {
    multiset(Flat(pages)) == multiset(GroupsOf(groups, u))
  }

  ghost predicate OnOnePage<T>(pages: seq<seq<T>>) {
    forall i :: 0 < i < |pages| ==> pages[i] == []
  }

  /** What follows the first page, and when that is nothing. */
  lemma {:induction false} FirstPageFirst<T>(pages: seq<seq<T>>) returns (rest: seq<T>)
    requires pages != []
    ensures Flat(pages) == pages[0] + rest && (rest == [] <==> OnOnePage(pages))
  {
    var front, last := pages[..|pages| - 1], pages[|pages| - 1];
    if front == [] {
      rest := [];
      assert Flat(pages) == [] + last;
    } else {
      var before := FirstPageFirst(front);
      rest := before + last;
      assert pages[0] + before + last == pages[0] + rest;
      assert OnOnePage(pages) <==> OnOnePage(front) && last == [] by {
        assert forall i :: 0 < i < |front| ==> front[i] == pages[i];
      }
    }
  }

  /**
   * The two ways of asking name the same groups exactly for users whose groups fit on the lookup's first page; and
   * the answers are equal exactly when, besides, that page lists them in group order.
   */
  lemma LookupAgreesIff(groups: seq<Group>, u: Name, pages: seq<seq<Name>>)
    requires Regular(groups) && u != "" && Describes(pages, groups, u)
    ensures multiset(Listed(groups, u)) == multiset(GroupsFor(pages)) <==> OnOnePage(pages)
    ensures Listed(groups, u) == GroupsFor(pages) <==> OnOnePage(pages) && GroupsFor(pages) == GroupsOf(groups, u)
  {
    EachGroupOnce(groups, u);
    if pages == [] {
      assert Flat(pages) == [];
    } else {
      var rest := FirstPageFirst(pages);
      assert multiset(pages[0] + rest) == multiset(pages[0]) + multiset(rest);
      assert |multiset(rest)| == |rest|;
      if multiset(pages[0]) + multiset(rest) == multiset(pages[0]) {
        assert |multiset(pages[0]) + multiset(rest)| == |multiset(pages[0])| + |multiset(rest)|;
      } else {
        assert rest != [];
      }
      assert OnOnePage(pages) ==> pages[0] + rest == pages[0];
    }
  }
}
