/** The Write* functions of writer/writer.go. Each opens its file through
    writeFile, which uses O_APPEND|O_CREATE (writer/writer.go:216-218), and
    writes its blocks or lines one at a time; the files are modelled as a map
    from names to contents, so every writer is proved to append exactly its
    rendered text (see Render) to the named file and to change nothing else. */
module Writer {
  import opened Schema
  import opened Strings
  import opened Sanitize
  import opened Strconv
  import opened Render
  import opened RenderFacts

  /** The text the loops append for one team is its address and `.id, `. */
  lemma TeamRefText(t: Team)
    ensures "rollbar_team." + SanitizeIdentifier(t.name) + ".id, " == TeamAddress(t) + ".id, "
  {
  }

  /** One step of the nested loop: appending a team's `.id` reference extends the list by that team. */
  lemma ProjectTeamIDsStep(refs: seq<Team>, t: Team, ref: string)
    requires ref == "rollbar_team." + SanitizeIdentifier(t.name) + ".id, "
    ensures "[" + JoinTeamRefs(refs, ".id, ") + ref == "[" + JoinTeamRefs(refs + [t], ".id, ")
  {
    TeamRefText(t);
    JoinTeamRefsSnoc(refs, t, ".id, ");
  }

  /** The nested loop of writer/writer.go:70-79: one `.id` reference for every
      occurrence of the project's ID in a team's project list, teams in
      order. */
  method ProjectTeamIDs(projectID: int, teams: seq<Team>) returns (projectTeamIDs: string)
    ensures projectTeamIDs == TeamIDList(projectID, teams)
  {
    projectTeamIDs := "[";
    ghost var refs: seq<Team> := [];
    var i := 0;
    while i < |teams|
      invariant 0 <= i <= |teams|
      invariant refs == ReferencingTeams(projectID, teams[..i])
      invariant projectTeamIDs == "[" + JoinTeamRefs(refs, ".id, ")
    {
      var team := teams[i];
      ghost var done := refs;
      var j := 0;
      assert team.projects[..j] == [];
      assert refs == done + Matches(projectID, team.projects[..j], team);
      while j < |team.projects|
        invariant 0 <= j <= |team.projects|
        invariant refs == done + Matches(projectID, team.projects[..j], team)
        invariant projectTeamIDs == "[" + JoinTeamRefs(refs, ".id, ")
      {
        MatchesSnoc(projectID, team.projects, j, team);
        if team.projects[j] == projectID {
          var ref := "rollbar_team." + SanitizeIdentifier(team.name) + ".id, ";
          ProjectTeamIDsStep(refs, team, ref);
          projectTeamIDs := projectTeamIDs + ref;
          refs := refs + [team];
        }
        j := j + 1;
      }
      assert team.projects[..j] == team.projects;
      ReferencingTeamsSnoc(projectID, teams, i);
      i := i + 1;
    }
    assert teams[..i] == teams;
    projectTeamIDs := projectTeamIDs + "]";
  }

  /** The loop of writer/writer.go:128-132: one `.id` reference per team of
      the user, in order. */
  method UserTeamIDs(teams: seq<Team>) returns (list: string)
    ensures list == TeamIDRefs(teams)
  {
    list := "[";
    var i := 0;
    while i < |teams|
      invariant 0 <= i <= |teams|
      invariant list == "[" + JoinTeamRefs(teams[..i], ".id, ")
    {
      JoinTeamRefsSnoc(teams[..i], teams[i], ".id, ");
      TeamRefText(teams[i]);
      assert teams[..i + 1] == teams[..i] + [teams[i]];
      list := list + "rollbar_team." + SanitizeIdentifier(teams[i].name) + ".id, ";
      i := i + 1;
    }
    assert teams[..i] == teams;
    list := list + "]";
  }

  /** The body of the loop of writer/writer.go:127-146: the user block is
      grown line by line, the `email` line only for a non-empty email and the
      `team_ids` line only for a user with teams. */
  method UserResource(user: User) returns (resource: string)
    ensures resource == UserBlock(user)
  {
    var teams := UserTeamIDs(user.teams);
    var attributes := "";
    if user.email != "" {
      attributes := attributes + EmailLine(user.email);
    }
    if |user.teams| > 0 {
      attributes := attributes + TeamIDsLine(teams);
    }
    resource := Block("rollbar_user", SanitizeIdentifier(user.username), attributes);
  }

  // ---------------------------------------------------------------------
  // The file system

  /** The contents of a file; a missing file reads as empty. */
  function Lookup(files: map<string, string>, name: string): string
  {
    if name in files then files[name] else ""
  }

  /** Two appends to one file make one append of both texts. */
  lemma AppendTwice(m0: map<string, string>, m1: map<string, string>, m2: map<string, string>,
                    name: string, a: string, b: string)
    requires m1 == m0[name := Lookup(m0, name) + a]
    requires m2 == m1[name := Lookup(m1, name) + b]
    ensures m2 == m0[name := Lookup(m0, name) + (a + b)]
  {
    assert Lookup(m1, name) + b == Lookup(m0, name) + (a + b);
  }

  // ---------------------------------------------------------------------
  // Appending to a file, as a step of the writers' loops

  // The rendered lists of a prefix one element longer, as the writers'
  // loops extend them.

  lemma TeamImportsSnoc(teams: seq<Team>, i: nat)
    requires i < |teams|
    ensures TeamImports(teams[..i + 1]) == TeamImports(teams[..i]) + [TeamImport(teams[i])]
  {
    assert teams[..i + 1] == teams[..i] + [teams[i]];
  }

  lemma TeamBlocksSnoc(teams: seq<Team>, i: nat)
    requires i < |teams|
    ensures TeamBlocks(teams[..i + 1]) == TeamBlocks(teams[..i]) + [TeamBlock(teams[i])]
  {
    assert teams[..i + 1] == teams[..i] + [teams[i]];
  }

  lemma UserBlocksSnoc(users: seq<User>, i: nat)
    requires i < |users|
    ensures UserBlocks(users[..i + 1]) == UserBlocks(users[..i]) + [UserBlock(users[i])]
  {
    assert users[..i + 1] == users[..i] + [users[i]];
  }

  lemma ProjectImportsSnoc(projects: seq<Project>, i: nat)
    requires i < |projects|
    ensures ProjectImports(projects[..i + 1]) == ProjectImports(projects[..i]) + [ProjectImport(projects[i])]
  {
    assert projects[..i + 1] == projects[..i] + [projects[i]];
  }

  lemma UserImportsSnoc(users: seq<User>, i: nat)
    requires i < |users|
    ensures UserImports(users[..i + 1]) == UserImports(users[..i]) + [UserImport(users[i])]
  {
    assert users[..i + 1] == users[..i] + [users[i]];
  }

  lemma ProjectBlocksSnoc(projects: seq<Project>, teams: seq<Team>, i: nat)
    requires i < |projects|
    ensures ProjectBlocks(projects[..i + 1], teams) == ProjectBlocks(projects[..i], teams) + [ProjectBlock(projects[i], teams)]
  {
    assert projects[..i + 1] == projects[..i] + [projects[i]];
  }

  lemma AccessTokenPairsSnoc(projects: seq<Project>, i: nat)
    requires i < |projects|
    ensures AccessTokenPairs(projects[..i + 1]) == AccessTokenPairs(projects[..i]) + TokenPairs(projects[i])
  {
    assert projects[..i + 1][..i] == projects[..i];
  }

  lemma AccessTokenBlocksSnoc(p: Project, j: nat)
    requires j < |p.accessTokens|
    ensures AccessTokenBlocks(TokenPairs(p)[..j + 1]) ==
            AccessTokenBlocks(TokenPairs(p)[..j]) + [AccessTokenBlock(p, p.accessTokens[j])]
  {
    assert TokenPairs(p)[..j + 1] == TokenPairs(p)[..j] + [(p, p.accessTokens[j])];
  }

  lemma AccessTokenImportsSnoc(p: Project, j: nat)
    requires j < |p.accessTokens|
    ensures AccessTokenImports(TokenPairs(p)[..j + 1]) ==
            AccessTokenImports(TokenPairs(p)[..j]) + [AccessTokenImport(p, p.accessTokens[j])]
  {
    assert TokenPairs(p)[..j + 1] == TokenPairs(p)[..j] + [(p, p.accessTokens[j])];
  }

  lemma AccessTokenBlocksAppend(xs: seq<(Project, AccessToken)>, ys: seq<(Project, AccessToken)>)
    ensures AccessTokenBlocks(xs + ys) == AccessTokenBlocks(xs) + AccessTokenBlocks(ys)
  {
  }

  lemma AccessTokenImportsAppend(xs: seq<(Project, AccessToken)>, ys: seq<(Project, AccessToken)>)
    ensures AccessTokenImports(xs + ys) == AccessTokenImports(xs) + AccessTokenImports(ys)
  {
  }


  /** Appending nothing leaves the files as they are. */
  lemma NothingAppended(files: map<string, string>, name: string)
    requires name in files
    ensures files == files[name := files[name] + Concat([])]
  {
    assert files[name] + Concat([]) == files[name];
  }

  /** Writing several pieces extends the text appended so far by all of them. */
  lemma AppendMany(original: map<string, string>, files: map<string, string>, name: string,
                   start: string, done: seq<string>, more: seq<string>)
    requires files == original[name := start + Concat(done)]
    ensures files[name := files[name] + Concat(more)] == original[name := start + Concat(done + more)]
  {
    ConcatAppend(done, more);
    assert files[name] + Concat(more) == start + (Concat(done) + Concat(more));
  }

  /** One more write extends the text appended so far by one element. */
  lemma AppendStep(original: map<string, string>, files: map<string, string>, name: string,
                   start: string, done: seq<string>, s: string)
    requires files == original[name := start + Concat(done)]
    ensures name in files
    ensures files[name := files[name] + s] == original[name := start + Concat(done + [s])]
  {
    ConcatSnoc(done, s);
    assert files[name] + s == start + (Concat(done) + s);
  }

  /** The files the writers append to, by name. */
  class FileSystem {
    var files: map<string, string>

    constructor (initial: map<string, string>)
      ensures files == initial
    {
      files := initial;
    }

    function Contents(name: string): string
      reads this
    {
      Lookup(files, name)
    }

    /** writeFile (writer/writer.go:216-224): opens the file for appending and
        creates it, empty, when it is missing. */
    method OpenAppend(filename: string)
      modifies this
      ensures files == old(files)[filename := old(Contents(filename))]
    {
      files := files[filename := Contents(filename)];
    }

    /** WriteString on a file opened with O_APPEND: the text goes to the end. */
    method WriteString(filename: string, s: string)
      requires filename in files
      modifies this
      ensures files == old(files)[filename := old(files[filename]) + s]
    {
      files := files[filename := files[filename] + s];
    }

    /** WriteProviderBlocks (writer/writer.go:16-33). */
    method WriteProviderBlocks(filename: string)
      modifies this
      ensures files == old(files)[filename := old(Contents(filename)) + ProviderBlock]
    {
      OpenAppend(filename);
      var resource := ProviderBlock;
      WriteString(filename, resource);
    }

    /** The inner loop of writer/writer.go:42-57: the blocks of one project's
        access tokens, in order. */
    method WriteProjectAccessTokensOf(project: Project, filename: string)
      requires filename in files
      modifies this
      ensures files == old(files)[filename := old(files[filename]) + Concat(AccessTokenBlocks(TokenPairs(project)))]
    {
      var j := 0;
      assert AccessTokenBlocks(TokenPairs(project)[..j]) == [];
      NothingAppended(files, filename);
      while j < |project.accessTokens|
        invariant 0 <= j <= |project.accessTokens|
        invariant files == old(files)[filename := old(files[filename]) + Concat(AccessTokenBlocks(TokenPairs(project)[..j]))]
      {
        var accessToken := project.accessTokens[j];
        var resource := AccessTokenBlock(project, accessToken);
        AppendStep(old(files), files, filename, old(files[filename]), AccessTokenBlocks(TokenPairs(project)[..j]), resource);
        WriteString(filename, resource);
        AccessTokenBlocksSnoc(project, j);
        j := j + 1;
      }
      assert TokenPairs(project)[..j] == TokenPairs(project);
    }

    /** WriteProjectAccessTokens (writer/writer.go:40-59): one block per
        (project, token) pair, projects in order and tokens in order. */
    method WriteProjectAccessTokens(projects: seq<Project>, filename: string)
      modifies this
      ensures files == old(files)[filename :=
                old(Contents(filename)) + Concat(AccessTokenBlocks(AccessTokenPairs(projects)))]
    {
      OpenAppend(filename);
      assert Contents(filename) + Concat([]) == Contents(filename);
      var i := 0;
      while i < |projects|
        invariant 0 <= i <= |projects|
        invariant files == old(files)[filename :=
                    old(Contents(filename)) + Concat(AccessTokenBlocks(AccessTokenPairs(projects[..i])))]
      {
        var project := projects[i];
        AppendMany(old(files), files, filename, old(Contents(filename)),
          AccessTokenBlocks(AccessTokenPairs(projects[..i])), AccessTokenBlocks(TokenPairs(project)));
        WriteProjectAccessTokensOf(project, filename);
        AccessTokenPairsSnoc(projects, i);
        AccessTokenBlocksAppend(AccessTokenPairs(projects[..i]), TokenPairs(project));
        i := i + 1;
      }
      assert projects[..i] == projects;
    }

    /** WriteProjects (writer/writer.go:66-99): one block per project, in
        order, with the `depends_on` list that line 88 derives. */
    method WriteProjects(projects: seq<Project>, teams: seq<Team>, filename: string)
      modifies this
      ensures files == old(files)[filename :=
                old(Contents(filename)) + Concat(ProjectBlocks(projects, teams))]
    {
      OpenAppend(filename);
      assert Contents(filename) + Concat([]) == Contents(filename);
      var i := 0;
      while i < |projects|
        invariant 0 <= i <= |projects|
        invariant files == old(files)[filename :=
                    old(Contents(filename)) + Concat(ProjectBlocks(projects[..i], teams))]
      {
        var project := projects[i];
        var projectTeamIDs := ProjectTeamIDs(project.id, teams);
        var resource := ProjectResource(project, projectTeamIDs);
        AppendStep(old(files), files, filename, old(Contents(filename)), ProjectBlocks(projects[..i], teams), resource);
        WriteString(filename, resource);
        ProjectBlocksSnoc(projects, teams, i);
        i := i + 1;
      }
      assert projects[..i] == projects;
    }

    /** WriteTeams (writer/writer.go:106-117): one block per team, in order. */
    method WriteTeams(teams: seq<Team>, filename: string)
      modifies this
      ensures files == old(files)[filename := old(Contents(filename)) + Concat(TeamBlocks(teams))]
    {
      OpenAppend(filename);
      assert Contents(filename) + Concat([]) == Contents(filename);
      var i := 0;
      while i < |teams|
        invariant 0 <= i <= |teams|
        invariant files == old(files)[filename := old(Contents(filename)) + Concat(TeamBlocks(teams[..i]))]
      {
        var team := teams[i];
        var resource := TeamBlock(team);
        AppendStep(old(files), files, filename, old(Contents(filename)), TeamBlocks(teams[..i]), resource);
        WriteString(filename, resource);
        TeamBlocksSnoc(teams, i);
        i := i + 1;
      }
      assert teams[..i] == teams;
    }

    /** WriteUsers (writer/writer.go:124-149): one block per user, in order;
        each block is built by UserResource. */
    method WriteUsers(users: seq<User>, filename: string)
      modifies this
      ensures files == old(files)[filename := old(Contents(filename)) + Concat(UserBlocks(users))]
    {
      OpenAppend(filename);
      assert Contents(filename) + Concat([]) == Contents(filename);
      var i := 0;
      while i < |users|
        invariant 0 <= i <= |users|
        invariant files == old(files)[filename := old(Contents(filename)) + Concat(UserBlocks(users[..i]))]
      {
        var user := users[i];
        var resource := UserResource(user);
        AppendStep(old(files), files, filename, old(Contents(filename)), UserBlocks(users[..i]), resource);
        WriteString(filename, resource);
        UserBlocksSnoc(users, i);
        i := i + 1;
      }
      assert users[..i] == users;
    }

    /** The inner loop of writer/writer.go:158-165: the import lines of one
        project's access tokens, in order. */
    method WriteProjectAccessTokenImportCommandsOf(project: Project, filename: string)
      requires filename in files
      modifies this
      ensures files == old(files)[filename := old(files[filename]) + Concat(AccessTokenImports(TokenPairs(project)))]
    {
      var j := 0;
      assert AccessTokenImports(TokenPairs(project)[..j]) == [];
      NothingAppended(files, filename);
      while j < |project.accessTokens|
        invariant 0 <= j <= |project.accessTokens|
        invariant files == old(files)[filename := old(files[filename]) + Concat(AccessTokenImports(TokenPairs(project)[..j]))]
      {
        var accessToken := project.accessTokens[j];
        var line := AccessTokenImport(project, accessToken);
        AppendStep(old(files), files, filename, old(files[filename]), AccessTokenImports(TokenPairs(project)[..j]), line);
        WriteString(filename, line);
        AccessTokenImportsSnoc(project, j);
        j := j + 1;
      }
      assert TokenPairs(project)[..j] == TokenPairs(project);
    }

    /** WriteProjectAccessTokenImportCommands (writer/writer.go:156-168): one
        line per (project, token) pair, in the order of the blocks. */
    method WriteProjectAccessTokenImportCommands(projects: seq<Project>, filename: string)
      modifies this
      ensures files == old(files)[filename :=
                old(Contents(filename)) + Concat(AccessTokenImports(AccessTokenPairs(projects)))]
    {
      OpenAppend(filename);
      assert Contents(filename) + Concat([]) == Contents(filename);
      var i := 0;
      while i < |projects|
        invariant 0 <= i <= |projects|
        invariant files == old(files)[filename :=
                    old(Contents(filename)) + Concat(AccessTokenImports(AccessTokenPairs(projects[..i])))]
      {
        var project := projects[i];
        AppendMany(old(files), files, filename, old(Contents(filename)),
          AccessTokenImports(AccessTokenPairs(projects[..i])), AccessTokenImports(TokenPairs(project)));
        WriteProjectAccessTokenImportCommandsOf(project, filename);
        AccessTokenPairsSnoc(projects, i);
        AccessTokenImportsAppend(AccessTokenPairs(projects[..i]), TokenPairs(project));
        i := i + 1;
      }
      assert projects[..i] == projects;
    }

    /** WriteProjectImportCommands (writer/writer.go:175-183). */
    method WriteProjectImportCommands(projects: seq<Project>, filename: string)
      modifies this
      ensures files == old(files)[filename := old(Contents(filename)) + Concat(ProjectImports(projects))]
    {
      OpenAppend(filename);
      assert Contents(filename) + Concat([]) == Contents(filename);
      var i := 0;
      while i < |projects|
        invariant 0 <= i <= |projects|
        invariant files == old(files)[filename := old(Contents(filename)) + Concat(ProjectImports(projects[..i]))]
      {
        var project := projects[i];
        var line := ProjectImport(project);
        AppendStep(old(files), files, filename, old(Contents(filename)), ProjectImports(projects[..i]), line);
        WriteString(filename, line);
        ProjectImportsSnoc(projects, i);
        i := i + 1;
      }
      assert projects[..i] == projects;
    }

    /** WriteTeamImportCommands (writer/writer.go:189-197). */
    method WriteTeamImportCommands(teams: seq<Team>, filename: string)
      modifies this
      ensures files == old(files)[filename := old(Contents(filename)) + Concat(TeamImports(teams))]
    {
      OpenAppend(filename);
      assert Contents(filename) + Concat([]) == Contents(filename);
      var i := 0;
      while i < |teams|
        invariant 0 <= i <= |teams|
        invariant files == old(files)[filename := old(Contents(filename)) + Concat(TeamImports(teams[..i]))]
      {
        var team := teams[i];
        var line := TeamImport(team);
        AppendStep(old(files), files, filename, old(Contents(filename)), TeamImports(teams[..i]), line);
        WriteString(filename, line);
        TeamImportsSnoc(teams, i);
        i := i + 1;
      }
      assert teams[..i] == teams;
    }

    /** WriteUserImportCommands (writer/writer.go:203-211). */
    method WriteUserImportCommands(users: seq<User>, filename: string)
      modifies this
      ensures files == old(files)[filename := old(Contents(filename)) + Concat(UserImports(users))]
    {
      OpenAppend(filename);
      assert Contents(filename) + Concat([]) == Contents(filename);
      var i := 0;
      while i < |users|
        invariant 0 <= i <= |users|
        invariant files == old(files)[filename := old(Contents(filename)) + Concat(UserImports(users[..i]))]
      {
        var user := users[i];
        var line := UserImport(user);
        AppendStep(old(files), files, filename, old(Contents(filename)), UserImports(users[..i]), line);
        WriteString(filename, line);
        UserImportsSnoc(users, i);
        i := i + 1;
      }
      assert users[..i] == users;
    }
  }
}
