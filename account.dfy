/** The order in which main.go calls the writers in its single-file mode
    (main.go:61-78). The data
    is fetched beforehand and the output directory is a parameter; the
    results are stated as the text each output file gains. */
module Account {
  import opened Schema
  import opened Strings
  import opened Render
  import opened Writer

  /** Everything the single-file mode appends to `rollbar_account.tf`, in
      call order (main.go:67-71). */
  function AccountText(projects: seq<Project>, teams: seq<Team>, users: seq<User>): string
  {
    ProviderBlock +
    Concat(TeamBlocks(teams)) +
    Concat(ProjectBlocks(projects, teams)) +
    Concat(AccessTokenBlocks(AccessTokenPairs(projects))) +
    Concat(UserBlocks(users))
  }

  /** Everything the import writers append to `import`, in call order
      (main.go:74-77). */
  function ImportText(projects: seq<Project>, teams: seq<Team>, users: seq<User>): string
  {
    Concat(AccessTokenImports(AccessTokenPairs(projects))) +
    Concat(ProjectImports(projects)) +
    Concat(TeamImports(teams)) +
    Concat(UserImports(users))
  }

  /** The four import writers, one after the other, on the same file. */
  method WriteImports(fs: FileSystem, projects: seq<Project>, teams: seq<Team>, users: seq<User>,
                      filename: string)
    modifies fs
    ensures fs.files == old(fs.files)[filename :=
              old(fs.Contents(filename)) + ImportText(projects, teams, users)]
  {
    ghost var m0 := fs.files;
    fs.WriteProjectAccessTokenImportCommands(projects, filename);
    ghost var m1 := fs.files;
    fs.WriteProjectImportCommands(projects, filename);
    ghost var m2 := fs.files;
    AppendTwice(m0, m1, m2, filename,
      Concat(AccessTokenImports(AccessTokenPairs(projects))), Concat(ProjectImports(projects)));
    fs.WriteTeamImportCommands(teams, filename);
    ghost var m3 := fs.files;
    AppendTwice(m0, m2, m3, filename,
      Concat(AccessTokenImports(AccessTokenPairs(projects))) + Concat(ProjectImports(projects)),
      Concat(TeamImports(teams)));
    fs.WriteUserImportCommands(users, filename);
    AppendTwice(m0, m3, fs.files, filename,
      Concat(AccessTokenImports(AccessTokenPairs(projects))) + Concat(ProjectImports(projects)) +
      Concat(TeamImports(teams)),
      Concat(UserImports(users)));
  }

  /** The single-file mode (main.go:61-78): all resource blocks go to
      `rollbar_account.tf`, all import lines to `import`, and no other file
      changes. */
  method WriteSingleFile(fs: FileSystem, projects: seq<Project>, teams: seq<Team>, users: seq<User>,
                         outPath: string)
    modifies fs
    ensures fs.files == old(fs.files)
      [outPath + "/rollbar_account.tf" :=
         old(fs.Contents(outPath + "/rollbar_account.tf")) + AccountText(projects, teams, users)]
      [outPath + "/import" :=
         old(fs.Contents(outPath + "/import")) + ImportText(projects, teams, users)]
  {
    var account := outPath + "/rollbar_account.tf";
    ghost var providers, teamBlocks, projectBlocks, tokenBlocks, userBlocks :=
      ProviderBlock, Concat(TeamBlocks(teams)), Concat(ProjectBlocks(projects, teams)),
      Concat(AccessTokenBlocks(AccessTokenPairs(projects))), Concat(UserBlocks(users));
    ghost var m0 := fs.files;
    fs.WriteProviderBlocks(account);
    ghost var m1 := fs.files;
    fs.WriteTeams(teams, account);
    ghost var m2 := fs.files;
    AppendTwice(m0, m1, m2, account, providers, teamBlocks);
    fs.WriteProjects(projects, teams, account);
    ghost var m3 := fs.files;
    AppendTwice(m0, m2, m3, account, providers + teamBlocks, projectBlocks);
    fs.WriteProjectAccessTokens(projects, account);
    ghost var m4 := fs.files;
    AppendTwice(m0, m3, m4, account, providers + teamBlocks + projectBlocks, tokenBlocks);
    fs.WriteUsers(users, account);
    ghost var m5 := fs.files;
    AppendTwice(m0, m4, m5, account, providers + teamBlocks + projectBlocks + tokenBlocks, userBlocks);
    var imports := outPath + "/import";
    assert |account| != |imports|;
    assert Lookup(m5, imports) == Lookup(m0, imports);
    WriteImports(fs, projects, teams, users, imports);
  }
}
