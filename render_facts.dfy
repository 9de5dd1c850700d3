/** Properties of the rendered text: how a project's team list is joined,
    what its `depends_on` list is, and that the import commands address the
    resources that the resource blocks declare. */
module RenderFacts {
  import opened Wrappers
  import opened Schema
  import opened Strings
  import opened Strconv
  import opened Sanitize
  import opened Render

  // ---------------------------------------------------------------------
  // The project/team join (writer/writer.go:69-79)

  function Repeat<T>(x: T, n: nat): seq<T>
  {
    seq(n, k => x)
  }

  lemma RepeatSnoc<T>(x: T, n: nat)
    ensures Repeat(x, n) + [x] == Repeat(x, n + 1)
  {
  }

  /** A team appears once for every occurrence of the ID in its project list,
      so a duplicated ID gives a duplicated entry. */
  lemma {:induction false} MatchesRepeat(id: int, ids: seq<int>, t: Team)
    ensures Matches(id, ids, t) == Repeat(t, multiset(ids)[id])
  {
    if ids != [] {
      var init, last := ids[..|ids| - 1], ids[|ids| - 1];
      assert ids == init + [last];
      assert multiset(ids) == multiset(init) + multiset{last};
      MatchesRepeat(id, init, t);
      if last == id {
        RepeatSnoc(t, multiset(init)[id]);
      }
    }
  }

  lemma {:induction false} MatchesMembers(id: int, ids: seq<int>, t: Team)
    ensures forall x :: x in Matches(id, ids, t) <==> x == t && id in ids
  {
    if ids != [] {
      var init := ids[..|ids| - 1];
      assert ids == init + [ids[|ids| - 1]];
      MatchesMembers(id, init, t);
    }
  }

  /** A team is in a project's team list exactly when it is one of the teams
      and its project list mentions the project's ID. */
  lemma {:induction false} ReferencingTeamsMembers(id: int, teams: seq<Team>)
    ensures forall t :: t in ReferencingTeams(id, teams) <==> t in teams && id in t.projects
  {
    if teams != [] {
      var init := teams[..|teams| - 1];
      var last := teams[|teams| - 1];
      assert teams == init + [last];
      ReferencingTeamsMembers(id, init);
      MatchesMembers(id, last.projects, last);
    }
  }

  /** The team list is `[]` exactly when no team mentions the project. */
  lemma TeamIDListEmpty(id: int, teams: seq<Team>)
    ensures TeamIDList(id, teams) == "[]" <==> forall t | t in teams :: id !in t.projects
  {
    var refs := ReferencingTeams(id, teams);
    ReferencingTeamsMembers(id, teams);
    var joined := JoinTeamRefs(refs, ".id, ");
    JoinTeamRefsEmpty(refs, ".id, ");
    if TeamIDList(id, teams) == "[]" {
      assert |"[" + joined + "]"| == 2;
      assert refs == [];
    } else {
      assert joined != "";
      assert refs[0] in refs;
    }
  }

  // Extending the inputs of the join by one element, as the loops do.

  lemma MatchesSnoc(id: int, ids: seq<int>, j: nat, t: Team)
    requires j < |ids|
    ensures Matches(id, ids[..j + 1], t) == Matches(id, ids[..j], t) + (if ids[j] == id then [t] else [])
  {
    assert ids[..j + 1][..j] == ids[..j];
  }

  lemma ReferencingTeamsSnoc(id: int, teams: seq<Team>, i: nat)
    requires i < |teams|
    ensures ReferencingTeams(id, teams[..i + 1]) ==
            ReferencingTeams(id, teams[..i]) + Matches(id, teams[i].projects, teams[i])
  {
    assert teams[..i + 1][..i] == teams[..i];
  }

  lemma JoinTeamRefsSnoc(teams: seq<Team>, t: Team, suffix: string)
    ensures JoinTeamRefs(teams + [t], suffix) == JoinTeamRefs(teams, suffix) + TeamAddress(t) + suffix
  {
    assert TeamRefs(teams + [t], suffix) == TeamRefs(teams, suffix) + [TeamAddress(t) + suffix];
    ConcatSnoc(TeamRefs(teams, suffix), TeamAddress(t) + suffix);
  }

  // ---------------------------------------------------------------------
  // depends_on (writer/writer.go:88)

  lemma JoinTeamRefsCons(teams: seq<Team>, suffix: string)
    requires teams != []
    ensures JoinTeamRefs(teams, suffix) == TeamAddress(teams[0]) + suffix + JoinTeamRefs(teams[1..], suffix)
  {
    assert TeamRefs(teams, suffix)[1..] == TeamRefs(teams[1..], suffix);
    ConcatCons(TeamRefs(teams, suffix));
  }

  /** The joined references are empty exactly when there are no teams. */
  lemma JoinTeamRefsEmpty(teams: seq<Team>, suffix: string)
    ensures JoinTeamRefs(teams, suffix) == "" <==> teams == []
  {
    ConcatEmpty(TeamRefs(teams, suffix));
    if teams != [] {
      assert TeamRefs(teams, suffix)[0] != "";
    }
  }

  /** The `.` before a name does not start a match of `pat`. */
  lemma SkipDot(name: string, x: string, pat: string, rep: string)
    requires pat != [] && |pat| <= 1 + |name| + |x|
    requires ("." + (name + x))[..|pat|] != pat
    ensures ReplaceAll("." + (name + x), pat, rep) == "." + ReplaceAll(name + x, pat, rep)
  {
    var s1 := "." + (name + x);
    ReplaceAllNoMatch(s1, pat, rep);
    assert s1[1..] == name + x;
  }

  /** A sanitized name holds no `.`, so no pattern starting with `.` matches
      inside it. */
  lemma SkipName(name: string, x: string, pat: string, rep: string)
    requires IsClean(name) && pat != [] && pat[0] == '.'
    ensures ReplaceAll(name + x, pat, rep) == name + ReplaceAll(x, pat, rep)
  {
    forall i | 0 <= i < |name| ensures name[i] != pat[0] {
      assert !IsForbidden(name[i]);
    }
    ReplaceAllSkips(name, x, pat, rep);
  }

  /** A match at the front is replaced, and the rest is processed. */
  lemma DropMatch(x: string, pat: string, rep: string)
    requires pat != []
    ensures ReplaceAll(pat + x, pat, rep) == rep + ReplaceAll(x, pat, rep)
  {
    ReplaceAllMatch(pat + x, pat, rep);
    assert (pat + x)[|pat|..] == x;
  }

  /** A team address followed by more text, split after the resource kind. */
  lemma EntrySplit(name: string, more: string)
    ensures Address("rollbar_team", name) + more == "rollbar_team" + ("." + (name + more))
  {
  }

  /** An entry `<kind>.<name><tail>` where neither `kind` nor `name` holds a
      `.` and no match starts at the `.` between them: only the tail changes. */
  lemma EntryTail(kind: string, name: string, tail: string, pat: string, rep: string)
    requires pat != [] && pat[0] == '.' && IsClean(name)
    requires forall i | 0 <= i < |kind| :: kind[i] != '.'
    requires |pat| <= 1 + |name| + |tail| && ("." + (name + tail))[..|pat|] != pat
    ensures ReplaceAll(kind + ("." + (name + tail)), pat, rep) ==
            kind + ("." + (name + ReplaceAll(tail, pat, rep)))
  {
    ReplaceAllSkips(kind, "." + (name + tail), pat, rep);
    SkipDot(name, tail, pat, rep);
    SkipName(name, tail, pat, rep);
  }

  /** The resource kind of a team holds no `.`. */
  lemma TeamKindHasNoDot()
    ensures forall i | 0 <= i < |"rollbar_team"| :: "rollbar_team"[i] != '.'
  {
  }

  /** `.id, ` does not occur at the `.` that ends `rollbar_team`: a sanitized
      name has no `.`, `,` or space. */
  lemma NotAtDot(name: string, rest: string)
    requires IsClean(name)
    ensures ("." + (name + (".id, " + rest)))[..5] != ".id, "
  {
    var s1 := "." + (name + (".id, " + rest));
    if |name| >= 3 {
      assert s1[3] == name[2];
      assert !IsForbidden(name[2]);
    } else {
      assert s1[1 + |name|] == '.';
    }
  }

  /** In one entry `rollbar_team.<name>.id, `, with `name` sanitized, the only
      occurrence of `.id, ` is the one that ends the entry. */
  lemma EntryDependsOn(name: string, rest: string)
    requires IsClean(name)
    ensures ReplaceAll(Address("rollbar_team", name) + (".id, " + rest), ".id, ", ", ") ==
            Address("rollbar_team", name) + (", " + ReplaceAll(rest, ".id, ", ", "))
  {
    var pat, rep := ".id, ", ", ";
    EntrySplit(name, pat + rest);
    NotAtDot(name, rest);
    TeamKindHasNoDot();
    EntryTail("rollbar_team", name, pat + rest, pat, rep);
    DropMatch(rest, pat, rep);
    EntrySplit(name, rep + ReplaceAll(rest, pat, rep));
  }

  /** Regrouping an entry of a closed list. */
  lemma Regroup(address: string, suffix: string, entries: string)
    ensures address + suffix + entries + "]" == address + (suffix + (entries + "]"))
  {
  }

  lemma {:induction false} JoinDependsOn(teams: seq<Team>)
    ensures ReplaceAll(JoinTeamRefs(teams, ".id, ") + "]", ".id, ", ", ") == JoinTeamRefs(teams, ", ") + "]"
  {
    if teams == [] {
    } else {
      var name := SanitizeIdentifier(teams[0].name);
      var entries, replaced := JoinTeamRefs(teams[1..], ".id, "), JoinTeamRefs(teams[1..], ", ");
      JoinTeamRefsCons(teams, ".id, ");
      JoinTeamRefsCons(teams, ", ");
      Regroup(TeamAddress(teams[0]), ".id, ", entries);
      Regroup(TeamAddress(teams[0]), ", ", replaced);
      EntryDependsOn(name, entries + "]");
      JoinDependsOn(teams[1..]);
    }
  }

  /** The intended `depends_on` list is the team list with the `.id` of every
      entry removed: the addresses of the team resources (see TeamBlock), in
      the same order and with the same multiplicity. */
  lemma DependsOnStripsIdSuffix(id: int, teams: seq<Team>)
    ensures DependsOn(TeamIDList(id, teams)) == DependsOnList(id, teams)
  {
    var refs := ReferencingTeams(id, teams);
    JoinDependsOn(refs);
    ReplaceAllSkips("[", JoinTeamRefs(refs, ".id, ") + "]", ".id, ", ", ");
    assert TeamIDList(id, teams) == "[" + (JoinTeamRefs(refs, ".id, ") + "]");
  }

  /** A single team that mentions the project once is its only referencing team. */
  lemma SingleTeamRefs(id: int, t: Team)
    requires t.projects == [id]
    ensures ReferencingTeams(id, [t]) == [t]
  {
    assert [id][..0] == [];
    assert Matches(id, [id], t) == [t];
    assert [t][..0] == [];
  }

  lemma SingleTeamIDList(id: int, t: Team)
    requires t.projects == [id]
    ensures TeamIDList(id, [t]) == "[" + TeamAddress(t) + ".id, " + "]"
  {
    SingleTeamRefs(id, t);
    assert TeamRefs([t], ".id, ") == [TeamAddress(t) + ".id, "];
    ConcatSnoc([], TeamAddress(t) + ".id, ");
  }

  lemma SingleTeamDependsOnList(id: int, t: Team)
    requires t.projects == [id]
    ensures DependsOnList(id, [t]) == "[" + TeamAddress(t) + ", " + "]"
  {
    SingleTeamRefs(id, t);
    assert TeamRefs([t], ", ") == [TeamAddress(t) + ", "];
    ConcatSnoc([], TeamAddress(t) + ", ");
  }

  /** The end of a mangled one-entry list. */
  lemma ListTail()
    ensures ReplaceAll(".id, ]", ".id", "") == ", ]"
  {
    assert ".id, ]" == ".id" + ", ]";
    DropMatch(", ]", ".id", "");
    ReplaceAllSkips(", ]", "", ".id", "");
    assert ", ]" + "" == ", ]";
  }

  lemma MangledTail(m: string)
    requires IsClean(m)
    ensures ReplaceAll(".id" + m + ".id, ]", ".id", "") == m + ", ]"
  {
    assert ".id" + m + ".id, ]" == ".id" + (m + ".id, ]");
    DropMatch(m + ".id, ]", ".id", "");
    ReplaceAllSkips(m, ".id, ]", ".id", "");
    ListTail();
  }

  /** Deleting every `.id` from the one-entry list of a team whose sanitized
      name is `id` followed by `m`. */
  lemma MangledEntry(m: string)
    requires IsClean(m)
    ensures ReplaceAll("[rollbar_team" + (".id" + m + ".id, ]"), ".id", "") == "[rollbar_team" + m + ", ]"
  {
    ReplaceAllSkips("[rollbar_team", ".id" + m + ".id, ]", ".id", "");
    MangledTail(m);
  }

  lemma OneEntryList(m: string)
    ensures "[" + Address("rollbar_team", "id" + m) + ".id, " + "]" == "[rollbar_team" + (".id" + m + ".id, ]")
  {
  }

  /** writer/writer.go:88 as written: deleting every `.id` also deletes the
      `.id` formed by the `.` after `rollbar_team` and a sanitized team name
      that begins with `id` (a team named `identity`, say), so the
      `depends_on` entry no longer names the team resource. */
  lemma DependsOnAsWrittenMangles(id: int, t: Team)
    requires t.projects == [id]
    requires StartsWithId(SanitizeIdentifier(t.name))
    ensures var name := SanitizeIdentifier(t.name);
            DependsOnAsWritten(TeamIDList(id, [t])) == "[rollbar_team" + name[2..] + ", ]" &&
            DependsOnList(id, [t]) == "[rollbar_team." + name + ", ]"
  {
    var name := SanitizeIdentifier(t.name);
    var m := name[2..];
    assert name == "id" + m;
    SingleTeamIDList(id, t);
    SingleTeamDependsOnList(id, t);
    OneEntryList(m);
    assert IsClean(m) by {
      forall i | 0 <= i < |m| ensures !IsForbidden(m[i]) { assert m[i] == name[i + 2]; }
    }
    MangledEntry(m);
    assert "[" + TeamAddress(t) + ", " + "]" == "[rollbar_team." + name + ", ]";
  }

  /** The source and the intended `depends_on` list still differ for such a
      team: the source's entry is three characters short. */
  lemma DependsOnAsWrittenDiffers(id: int, t: Team)
    requires t.projects == [id]
    requires StartsWithId(SanitizeIdentifier(t.name))
    ensures |DependsOnAsWritten(TeamIDList(id, [t]))| + 3 == |DependsOnList(id, [t])|
  {
    DependsOnAsWrittenMangles(id, t);
  }

  /** The name begins with the letters `id`. */
  predicate StartsWithId(name: string)
  {
    |name| >= 2 && name[0] == 'i' && name[1] == 'd'
  }

  /** `.id` does not occur at the `.` that ends `rollbar_team` unless the
      sanitized name begins with `id`. */
  lemma NotIdAtDot(name: string, rest: string)
    requires !StartsWithId(name)
    ensures ("." + (name + (".id, " + rest)))[..3] != ".id"
  {
    var s1 := "." + (name + (".id, " + rest));
    if |name| >= 2 {
      assert s1[1] == name[0] && s1[2] == name[1];
    } else {
      assert s1[1 + |name|] == '.';
    }
  }

  /** The suffix `.id` of an entry is deleted, and the `, ` after it holds
      no `.`. */
  lemma TailAsWritten(rest: string)
    ensures ReplaceAll(".id, " + rest, ".id", "") == ", " + ReplaceAll(rest, ".id", "")
  {
    assert ".id, " + rest == ".id" + (", " + rest);
    DropMatch(", " + rest, ".id", "");
    ReplaceAllSkips(", ", rest, ".id", "");
  }

  /** In one entry `rollbar_team.<name>.id, `, with `name` sanitized and not
      starting with `id`, the only `.id` is the entry's suffix. */
  lemma EntryAsWritten(name: string, rest: string)
    requires IsClean(name) && !StartsWithId(name)
    ensures ReplaceAll(Address("rollbar_team", name) + (".id, " + rest), ".id", "") ==
            Address("rollbar_team", name) + (", " + ReplaceAll(rest, ".id", ""))
  {
    var tail := ".id, " + rest;
    EntrySplit(name, tail);
    NotIdAtDot(name, rest);
    TeamKindHasNoDot();
    EntryTail("rollbar_team", name, tail, ".id", "");
    TailAsWritten(rest);
    EntrySplit(name, ", " + ReplaceAll(rest, ".id", ""));
  }

  /** Where no team's sanitized name begins with `id`, deleting every `.id`
      removes exactly the suffix of every entry. */
  lemma {:induction false} JoinDependsOnAsWritten(teams: seq<Team>)
    requires forall t | t in teams :: !StartsWithId(SanitizeIdentifier(t.name))
    ensures ReplaceAll(JoinTeamRefs(teams, ".id, ") + "]", ".id", "") == JoinTeamRefs(teams, ", ") + "]"
  {
    if teams != [] {
      var name := SanitizeIdentifier(teams[0].name);
      assert teams[0] in teams;
      var entries, replaced := JoinTeamRefs(teams[1..], ".id, "), JoinTeamRefs(teams[1..], ", ");
      JoinTeamRefsCons(teams, ".id, ");
      JoinTeamRefsCons(teams, ", ");
      Regroup(TeamAddress(teams[0]), ".id, ", entries);
      Regroup(TeamAddress(teams[0]), ", ", replaced);
      EntryAsWritten(name, entries + "]");
      forall t | t in teams[1..] ensures !StartsWithId(SanitizeIdentifier(t.name)) {
        assert t in teams;
      }
      JoinDependsOnAsWritten(teams[1..]);
    }
  }

  lemma DependsOnAsWrittenAgrees(id: int, teams: seq<Team>)
    requires forall t | t in teams && id in t.projects :: !StartsWithId(SanitizeIdentifier(t.name))
    ensures DependsOnAsWritten(TeamIDList(id, teams)) == DependsOnList(id, teams)
  {
    var refs := ReferencingTeams(id, teams);
    ReferencingTeamsMembers(id, teams);
    JoinDependsOnAsWritten(refs);
    ReplaceAllSkips("[", JoinTeamRefs(refs, ".id, ") + "]", ".id", "");
    assert TeamIDList(id, teams) == "[" + (JoinTeamRefs(refs, ".id, ") + "]");
  }

  // ---------------------------------------------------------------------
  // Project blocks (writer/writer.go:83-94)

  /** A project block holds only the `name` attribute when no team mentions
      the project, and otherwise also the team list and the `depends_on` list
      that line 88 derives from it. That list is the list of the teams'
      addresses whenever no referencing team's sanitized name starts with
      `id`. */
  lemma ProjectBlockShape(p: Project, teams: seq<Team>)
    ensures (forall t | t in teams :: p.id !in t.projects) ==>
            ProjectBlock(p, teams) == Block("rollbar_project", SanitizeIdentifier(p.name), NameLine(p.name))
    ensures (exists t | t in teams :: p.id in t.projects) ==>
            ProjectBlock(p, teams) ==
            Block("rollbar_project", SanitizeIdentifier(p.name),
              NameLine(p.name) +
              "  team_ids = " + TeamIDList(p.id, teams) + "\n" +
              "  depends_on = " + DependsOnAsWritten(TeamIDList(p.id, teams)) + "\n")
    ensures (exists t | t in teams :: p.id in t.projects) &&
            (forall t | t in teams && p.id in t.projects :: !StartsWithId(SanitizeIdentifier(t.name))) ==>
            ProjectBlock(p, teams) ==
            Block("rollbar_project", SanitizeIdentifier(p.name),
              NameLine(p.name) +
              "  team_ids = " + TeamIDList(p.id, teams) + "\n" +
              "  depends_on = " + DependsOnList(p.id, teams) + "\n")
  {
    TeamIDListEmpty(p.id, teams);
    if forall t | t in teams && p.id in t.projects :: !StartsWithId(SanitizeIdentifier(t.name)) {
      DependsOnAsWrittenAgrees(p.id, teams);
    }
  }

  // ---------------------------------------------------------------------
  // User blocks (writer/writer.go:134-141)

  /** A user block starts its attributes with the `email` line exactly when
      the email is not empty, and ends them with the `team_ids` line exactly
      when the user has teams; without teams the email line is all there is. */
  lemma UserBlockAttributes(u: User)
    ensures u.email != "" ==> "  email = \"" + u.email + "\"\n" <= UserAttributes(u)
    ensures u.email == "" ==> !("  email = \"" <= UserAttributes(u))
    ensures |u.teams| > 0 ==> EndsWith(UserAttributes(u), "  team_ids = \"" + TeamIDRefs(u.teams) + "\"\n")
    ensures |u.teams| == 0 ==> UserAttributes(u) == EmailLine(u.email)
  {
    var attrs := UserAttributes(u);
    if u.email != "" {
      assert attrs[..|EmailLine(u.email)|] == EmailLine(u.email);
    } else if |u.teams| > 0 {
      assert attrs[2] == 't';
    }
    if |u.teams| > 0 {
      var line := UserTeamsLine(u.teams);
      assert attrs[|attrs| - |line|..] == line;
    }
  }

  predicate EndsWith(s: string, suffix: string)
  {
    |suffix| <= |s| && s[|s| - |suffix|..] == suffix
  }
}
