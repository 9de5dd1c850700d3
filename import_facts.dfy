/** The import command scripts read back: every import line names the
    address of the resource block that the corresponding writer declares, in
    the same position and order. */
module ImportFacts {
  import opened Wrappers
  import opened Schema
  import opened Strconv
  import opened Sanitize
  import opened Render
  import opened RenderFacts

  const ImportPrefix: string := "terraform import "

  /** The index of the first space in `s`, or `|s|` when there is none. */
  function FirstSpace(s: string): (k: nat)
    ensures k <= |s|
    ensures forall i | 0 <= i < k :: s[i] != ' '
    ensures k < |s| ==> s[k] == ' '
  {
    if s == [] || s[0] == ' ' then 0 else 1 + FirstSpace(s[1..])
  }

  /** Reads an import line back into its address (up to the first space) and
      its target (up to the final newline). */
  function ParseImport(line: string): Option<(string, string)>
  {
    if |line| < |ImportPrefix| + 1 || line[..|ImportPrefix|] != ImportPrefix || line[|line| - 1] != '\n' then None
    else
      var body := line[|ImportPrefix|..|line| - 1];
      var k := FirstSpace(body);
      if k == |body| then None else Some((body[..k], body[k + 1..]))
  }

  /** An import line whose address has no space reads back as the address and
      the target it was written from. */
  lemma ParseImportCommand(address: string, target: string)
    requires ' ' !in address
    ensures ParseImport(ImportCommand(address, target)) == Some((address, target))
  {
    var line := ImportCommand(address, target);
    var body := address + " " + target;
    assert line == ImportPrefix + body + "\n";
    assert line[..|ImportPrefix|] == ImportPrefix;
    assert line[|ImportPrefix|..|line| - 1] == body;
    var k := FirstSpace(body);
    assert body[|address|] == ' ';
    assert forall i | 0 <= i < |address| :: body[i] == address[i];
    assert k == |address|;
    assert body[..|address|] == address;
    assert body[|address| + 1..] == target;
  }

  /** The block opens with `resource "<kind>" "<ident>" {`. */
  predicate Declares(block: string, kind: string, ident: string)
  {
    BlockHeader(kind, ident) <= block
  }

  /** Every block opens with its header and ends with the closing line. */
  lemma BlockFrame(kind: string, ident: string, attributes: string)
    ensures Declares(Block(kind, ident, attributes), kind, ident)
    ensures EndsWith(Block(kind, ident, attributes), BlockEnd)
  {
    var b := Block(kind, ident, attributes);
    assert b[..|BlockHeader(kind, ident)|] == BlockHeader(kind, ident);
    assert b[|b| - |BlockEnd|..] == BlockEnd;
  }

  lemma CleanAddress(kind: string, ident: string)
    requires ' ' !in kind && IsClean(ident)
    ensures ' ' !in Address(kind, ident)
  {
  }

  lemma CleanTokenLabel(p: Project, t: AccessToken)
    ensures IsClean(TokenLabel(p, t))
  {
    var a, b := SanitizeIdentifier(p.name), SanitizeIdentifier(t.name);
    var l := TokenLabel(p, t);
    forall i | 0 <= i < |l| ensures !IsForbidden(l[i]) {
      if i < |a| { assert l[i] == a[i]; }
      else if i > |a| { assert l[i] == b[i - |a| - 1]; }
    }
  }

  lemma ProjectImportMatchesBlock(p: Project, teams: seq<Team>)
    ensures var ident := SanitizeIdentifier(p.name);
            Declares(ProjectBlock(p, teams), "rollbar_project", ident) &&
            EndsWith(ProjectBlock(p, teams), BlockEnd) &&
            ParseImport(ProjectImport(p)) == Some((Address("rollbar_project", ident), Itoa(p.id)))
  {
    TeamIDListEmpty(p.id, teams);
    BlockFrame("rollbar_project", SanitizeIdentifier(p.name), NameLine(p.name));
    BlockFrame("rollbar_project", SanitizeIdentifier(p.name),
      NameLine(p.name) +
      "  team_ids = " + TeamIDList(p.id, teams) + "\n" +
      "  depends_on = " + DependsOnAsWritten(TeamIDList(p.id, teams)) + "\n");
    CleanAddress("rollbar_project", SanitizeIdentifier(p.name));
    ParseImportCommand(Address("rollbar_project", SanitizeIdentifier(p.name)), Itoa(p.id));
  }

  /** writer/writer.go:175-183 against 66-99: one import line per project, in
      project order, whose address is that of the project's block and whose
      target is the project's ID. */
  lemma ProjectImportsMatchBlocks(projects: seq<Project>, teams: seq<Team>)
    ensures |ProjectImports(projects)| == |ProjectBlocks(projects, teams)| == |projects|
    ensures forall i | 0 <= i < |projects| ::
              var ident := SanitizeIdentifier(projects[i].name);
              Declares(ProjectBlocks(projects, teams)[i], "rollbar_project", ident) &&
              EndsWith(ProjectBlocks(projects, teams)[i], BlockEnd) &&
              ParseImport(ProjectImports(projects)[i]) ==
                Some((Address("rollbar_project", ident), Itoa(projects[i].id)))
  {
    forall i | 0 <= i < |projects|
      ensures var ident := SanitizeIdentifier(projects[i].name);
              Declares(ProjectBlocks(projects, teams)[i], "rollbar_project", ident) &&
              EndsWith(ProjectBlocks(projects, teams)[i], BlockEnd) &&
              ParseImport(ProjectImports(projects)[i]) ==
                Some((Address("rollbar_project", ident), Itoa(projects[i].id)))
    {
      ProjectImportMatchesBlock(projects[i], teams);
    }
  }

  lemma TeamImportMatchesBlock(t: Team)
    ensures var ident := SanitizeIdentifier(t.name);
            Declares(TeamBlock(t), "rollbar_team", ident) &&
            EndsWith(TeamBlock(t), BlockEnd) &&
            ParseImport(TeamImport(t)) == Some((Address("rollbar_team", ident), Itoa(t.id)))
  {
    BlockFrame("rollbar_team", SanitizeIdentifier(t.name), NameLine(t.name));
    CleanAddress("rollbar_team", SanitizeIdentifier(t.name));
    ParseImportCommand(Address("rollbar_team", SanitizeIdentifier(t.name)), Itoa(t.id));
  }

  /** writer/writer.go:189-197 against 106-117. The same address is the one
      the project blocks' team lists refer to (TeamAddress). */
  lemma TeamImportsMatchBlocks(teams: seq<Team>)
    ensures |TeamImports(teams)| == |TeamBlocks(teams)| == |teams|
    ensures forall i | 0 <= i < |teams| ::
              var ident := SanitizeIdentifier(teams[i].name);
              Declares(TeamBlocks(teams)[i], "rollbar_team", ident) &&
              EndsWith(TeamBlocks(teams)[i], BlockEnd) &&
              ParseImport(TeamImports(teams)[i]) == Some((TeamAddress(teams[i]), Itoa(teams[i].id)))
  {
    forall i | 0 <= i < |teams|
      ensures var ident := SanitizeIdentifier(teams[i].name);
              Declares(TeamBlocks(teams)[i], "rollbar_team", ident) &&
              EndsWith(TeamBlocks(teams)[i], BlockEnd) &&
              ParseImport(TeamImports(teams)[i]) == Some((TeamAddress(teams[i]), Itoa(teams[i].id)))
    {
      TeamImportMatchesBlock(teams[i]);
    }
  }

  lemma UserImportMatchesBlock(u: User)
    ensures var ident := SanitizeIdentifier(u.username);
            Declares(UserBlock(u), "rollbar_user", ident) &&
            EndsWith(UserBlock(u), BlockEnd) &&
            ParseImport(UserImport(u)) == Some((Address("rollbar_user", ident), Itoa(u.id)))
  {
    BlockFrame("rollbar_user", SanitizeIdentifier(u.username), UserAttributes(u));
    CleanAddress("rollbar_user", SanitizeIdentifier(u.username));
    ParseImportCommand(Address("rollbar_user", SanitizeIdentifier(u.username)), Itoa(u.id));
  }

  /** writer/writer.go:203-211 against 124-149. */
  lemma UserImportsMatchBlocks(users: seq<User>)
    ensures |UserImports(users)| == |UserBlocks(users)| == |users|
    ensures forall i | 0 <= i < |users| ::
              var ident := SanitizeIdentifier(users[i].username);
              Declares(UserBlocks(users)[i], "rollbar_user", ident) &&
              EndsWith(UserBlocks(users)[i], BlockEnd) &&
              ParseImport(UserImports(users)[i]) == Some((Address("rollbar_user", ident), Itoa(users[i].id)))
  {
    forall i | 0 <= i < |users|
      ensures var ident := SanitizeIdentifier(users[i].username);
              Declares(UserBlocks(users)[i], "rollbar_user", ident) &&
              EndsWith(UserBlocks(users)[i], BlockEnd) &&
              ParseImport(UserImports(users)[i]) == Some((Address("rollbar_user", ident), Itoa(users[i].id)))
    {
      UserImportMatchesBlock(users[i]);
    }
  }

  lemma AccessTokenImportMatchesBlock(p: Project, t: AccessToken)
    ensures Declares(AccessTokenBlock(p, t), "rollbar_project_access_token", TokenLabel(p, t)) &&
            EndsWith(AccessTokenBlock(p, t), BlockEnd) &&
            ParseImport(AccessTokenImport(p, t)) ==
              Some((Address("rollbar_project_access_token", TokenLabel(p, t)), Itoa(p.id) + "/" + t.accessToken))
  {
    CleanTokenLabel(p, t);
    BlockFrame("rollbar_project_access_token", TokenLabel(p, t),
      NameLine(t.name) +
      "  project_id = rollbar_project." + SanitizeIdentifier(p.name) + ".id\n" +
      "  depends_on = [rollbar_project." + SanitizeIdentifier(p.name) + "]\n" +
      "  rate_limit_window_size = " + Itoa(t.rateLimitWindowSize) + "\n" +
      "  rate_limit_window_count = " + Itoa(t.rateLimitWindowCount) + "\n");
    CleanAddress("rollbar_project_access_token", TokenLabel(p, t));
    ParseImportCommand(Address("rollbar_project_access_token", TokenLabel(p, t)), Itoa(p.id) + "/" + t.accessToken);
  }

  /** writer/writer.go:156-168 against 40-59: one import line per (project,
      token) pair, in the same nested order as the blocks; the address is the
      block's, the target is `<project ID>/<token value>`. */
  lemma AccessTokenImportsMatchBlocks(projects: seq<Project>)
    ensures var pairs := AccessTokenPairs(projects);
            |AccessTokenImports(pairs)| == |AccessTokenBlocks(pairs)| == |pairs|
    ensures var pairs := AccessTokenPairs(projects);
            forall k | 0 <= k < |pairs| ::
              var (p, t) := pairs[k];
              Declares(AccessTokenBlocks(pairs)[k], "rollbar_project_access_token", TokenLabel(p, t)) &&
              EndsWith(AccessTokenBlocks(pairs)[k], BlockEnd) &&
              ParseImport(AccessTokenImports(pairs)[k]) ==
                Some((Address("rollbar_project_access_token", TokenLabel(p, t)), Itoa(p.id) + "/" + t.accessToken))
  {
    var pairs := AccessTokenPairs(projects);
    forall k | 0 <= k < |pairs|
      ensures var (p, t) := pairs[k];
              Declares(AccessTokenBlocks(pairs)[k], "rollbar_project_access_token", TokenLabel(p, t)) &&
              EndsWith(AccessTokenBlocks(pairs)[k], BlockEnd) &&
              ParseImport(AccessTokenImports(pairs)[k]) ==
                Some((Address("rollbar_project_access_token", TokenLabel(p, t)), Itoa(p.id) + "/" + t.accessToken))
    {
      AccessTokenImportMatchesBlock(pairs[k].0, pairs[k].1);
    }
  }

  /** The pairs are exactly the (project, token) combinations of the input. */
  lemma {:induction false} AccessTokenPairsMembers(projects: seq<Project>)
    ensures forall p, t :: (p, t) in AccessTokenPairs(projects) <==> p in projects && t in p.accessTokens
  {
    if projects != [] {
      var init := projects[..|projects| - 1];
      var last := projects[|projects| - 1];
      assert projects == init + [last];
      AccessTokenPairsMembers(init);
      forall t ensures (last, t) in TokenPairs(last) <==> t in last.accessTokens {
        if t in last.accessTokens {
          var j :| 0 <= j < |last.accessTokens| && last.accessTokens[j] == t;
          assert TokenPairs(last)[j] == (last, t);
        }
      }
    }
  }
}
