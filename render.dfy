/** The text that each Write* function of writer/writer.go appends to its
    file, as functions of its inputs. The writer methods are proved to append
    exactly this text; the properties of the text are proved in RenderFacts. */
module Render {
  import opened Schema
  import opened Strings
  import opened Strconv
  import opened Sanitize

  /** The provider boilerplate (writer/writer.go:19-29). */
  const ProviderBlock: string :=
    "terraform {\n" +
    "  required_providers {\n" +
    "    rollbar = {\n" +
    "      source = \"rollbar/rollbar\"\n" +
    "      version = \"1.0.6\"\n" +
    "    }\n" +
    "  }\n" +
    "}\n" +
    "\n" +
    "provider \"rollbar\" {\n" +
    "}" + "\n\n"

  /** The first line of a resource block: `resource "<kind>" "<label>" {`. */
  function BlockHeader(kind: string, ident: string): string
  {
    "resource \"" + kind + "\" \"" + ident + "\" {\n"
  }

  /** The line that closes every resource block, followed by an empty line. */
  const BlockEnd: string := "}\n\n"

  /** A resource block: the header, the attribute lines, and the closing line. */
  function Block(kind: string, ident: string, attributes: string): string
  {
    BlockHeader(kind, ident) + attributes + BlockEnd
  }

  /** The `name` attribute line. */
  function NameLine(name: string): string
  {
    "  name = \"" + name + "\"\n"
  }

  /** The Terraform address of a resource: `<kind>.<label>`. */
  function Address(kind: string, ident: string): string
  {
    kind + "." + ident
  }

  /** A `terraform import <address> <target>` line. */
  function ImportCommand(address: string, target: string): string
  {
    "terraform import " + address + " " + target + "\n"
  }

  // ---------------------------------------------------------------------
  // Project access tokens (writer/writer.go:40-59, 156-168)

  /** The label of a token's block: the sanitized project name, `_`, and the
      sanitized token name. */
  function TokenLabel(p: Project, t: AccessToken): string
  {
    SanitizeIdentifier(p.name) + "_" + SanitizeIdentifier(t.name)
  }

  /** One access token block (writer/writer.go:45-53). */
  function AccessTokenBlock(p: Project, t: AccessToken): string
  {
    Block("rollbar_project_access_token", TokenLabel(p, t),
      NameLine(t.name) +
      "  project_id = rollbar_project." + SanitizeIdentifier(p.name) + ".id\n" +
      "  depends_on = [rollbar_project." + SanitizeIdentifier(p.name) + "]\n" +
      "  rate_limit_window_size = " + Itoa(t.rateLimitWindowSize) + "\n" +
      "  rate_limit_window_count = " + Itoa(t.rateLimitWindowCount) + "\n")
  }

  /** One access token import line (writer/writer.go:160-163). */
  function AccessTokenImport(p: Project, t: AccessToken): string
  {
    ImportCommand(Address("rollbar_project_access_token", TokenLabel(p, t)),
                  Itoa(p.id) + "/" + t.accessToken)
  }

  /** The (project, token) pairs of one project, in token order. */
  function TokenPairs(p: Project): seq<(Project, AccessToken)>
  {
    seq(|p.accessTokens|, j requires 0 <= j < |p.accessTokens| => (p, p.accessTokens[j]))
  }

  /** The (project, token) pairs in the order of the nested loops: projects in
      order, and within a project its tokens in order. */
  function AccessTokenPairs(projects: seq<Project>): seq<(Project, AccessToken)>
  {
    if projects == [] then []
    else AccessTokenPairs(projects[..|projects| - 1]) + TokenPairs(projects[|projects| - 1])
  }

  function AccessTokenBlocks(pairs: seq<(Project, AccessToken)>): seq<string>
  {
    seq(|pairs|, k requires 0 <= k < |pairs| => AccessTokenBlock(pairs[k].0, pairs[k].1))
  }

  function AccessTokenImports(pairs: seq<(Project, AccessToken)>): seq<string>
  {
    seq(|pairs|, k requires 0 <= k < |pairs| => AccessTokenImport(pairs[k].0, pairs[k].1))
  }

  // ---------------------------------------------------------------------
  // Team references (writer/writer.go:69-79, 88, 128-132)

  /** The address of a team's resource (see TeamBlock). */
  function TeamAddress(t: Team): string
  {
    Address("rollbar_team", SanitizeIdentifier(t.name))
  }

  /** `rollbar_team.<sanitized name><suffix>` for each team, in order. */
  function TeamRefs(teams: seq<Team>, suffix: string): seq<string>
  {
    seq(|teams|, i requires 0 <= i < |teams| => TeamAddress(teams[i]) + suffix)
  }

  function JoinTeamRefs(teams: seq<Team>, suffix: string): string
  {
    Concat(TeamRefs(teams, suffix))
  }

  /** The bracketed list of `.id` references to the teams, each followed by
      `, ` (the trailing separator is part of the output). */
  function TeamIDRefs(teams: seq<Team>): string
  {
    "[" + JoinTeamRefs(teams, ".id, ") + "]"
  }

  /** The team `t` once for every occurrence of `id` in `ids`, in order. */
  function Matches(id: int, ids: seq<int>, t: Team): seq<Team>
  {
    if ids == [] then []
    else Matches(id, ids[..|ids| - 1], t) + (if ids[|ids| - 1] == id then [t] else [])
  }

  /** The teams whose project list mentions `id`, in team order, each as often
      as it mentions it. */
  function ReferencingTeams(id: int, teams: seq<Team>): seq<Team>
  {
    if teams == [] then []
    else ReferencingTeams(id, teams[..|teams| - 1]) +
         Matches(id, teams[|teams| - 1].projects, teams[|teams| - 1])
  }

  /** The value of projectTeamIDs after the loop of writer/writer.go:70-79. */
  function TeamIDList(id: int, teams: seq<Team>): string
  {
    TeamIDRefs(ReferencingTeams(id, teams))
  }

  /** The `depends_on` list as writer/writer.go:88 computes it: every `.id`
      in the team list is deleted, wherever it occurs. */
  function DependsOnAsWritten(teamIDs: string): string
  {
    ReplaceAll(teamIDs, ".id", "")
  }

  /** The `depends_on` list as intended: only the `.id` that ends each entry
      is deleted. An entry is the only place where `.id, ` occurs, because a
      sanitized team name contains neither `.` nor `,` nor space. */
  function DependsOn(teamIDs: string): string
  {
    ReplaceAll(teamIDs, ".id, ", ", ")
  }

  /** The addresses of the referencing teams, each followed by `, `. */
  function DependsOnList(id: int, teams: seq<Team>): string
  {
    "[" + JoinTeamRefs(ReferencingTeams(id, teams), ", ") + "]"
  }

  // ---------------------------------------------------------------------
  // Projects (writer/writer.go:66-99, 175-183)

  /** The project block for an already rendered `team_ids` list
      (writer/writer.go:83-94): with a non-empty list it carries the list and
      the `depends_on` list derived from it as line 88 derives it. */
  function ProjectResource(p: Project, projectTeamIDs: string): string
  {
    if projectTeamIDs != "[]" then
      Block("rollbar_project", SanitizeIdentifier(p.name),
        NameLine(p.name) +
        "  team_ids = " + projectTeamIDs + "\n" +
        "  depends_on = " + DependsOnAsWritten(projectTeamIDs) + "\n")
    else
      Block("rollbar_project", SanitizeIdentifier(p.name), NameLine(p.name))
  }

  /** One project block, as writer/writer.go:66-99 writes it. */
  function ProjectBlock(p: Project, teams: seq<Team>): string
  {
    ProjectResource(p, TeamIDList(p.id, teams))
  }

  function ProjectBlocks(projects: seq<Project>, teams: seq<Team>): seq<string>
  {
    seq(|projects|, i requires 0 <= i < |projects| => ProjectBlock(projects[i], teams))
  }

  /** One project import line (writer/writer.go:178-179). */
  function ProjectImport(p: Project): string
  {
    ImportCommand(Address("rollbar_project", SanitizeIdentifier(p.name)), Itoa(p.id))
  }

  function ProjectImports(projects: seq<Project>): seq<string>
  {
    seq(|projects|, i requires 0 <= i < |projects| => ProjectImport(projects[i]))
  }

  // ---------------------------------------------------------------------
  // Teams (writer/writer.go:106-117, 189-197)

  /** One team block (writer/writer.go:110-112). */
  function TeamBlock(t: Team): string
  {
    Block("rollbar_team", SanitizeIdentifier(t.name), NameLine(t.name))
  }

  function TeamBlocks(teams: seq<Team>): seq<string>
  {
    seq(|teams|, i requires 0 <= i < |teams| => TeamBlock(teams[i]))
  }

  /** One team import line (writer/writer.go:192-193). */
  function TeamImport(t: Team): string
  {
    ImportCommand(Address("rollbar_team", SanitizeIdentifier(t.name)), Itoa(t.id))
  }

  function TeamImports(teams: seq<Team>): seq<string>
  {
    seq(|teams|, i requires 0 <= i < |teams| => TeamImport(teams[i]))
  }

  // ---------------------------------------------------------------------
  // Users (writer/writer.go:124-149, 203-211)

  /** The `email` line, present only for a non-empty email. */
  function EmailLine(email: string): string
  {
    if email != "" then "  email = \"" + email + "\"\n" else ""
  }

  /** The `team_ids` line, present only for a user with teams. The list is
      written inside quotes, as writer/writer.go:139 does. */
  function UserTeamsLine(teams: seq<Team>): string
  {
    if |teams| > 0 then TeamIDsLine(TeamIDRefs(teams)) else ""
  }

  function TeamIDsLine(teamIDs: string): string
  {
    "  team_ids = \"" + teamIDs + "\"\n"
  }

  /** The attribute lines of a user block. */
  function UserAttributes(u: User): string
  {
    EmailLine(u.email) + UserTeamsLine(u.teams)
  }

  /** One user block (writer/writer.go:134-141). */
  function UserBlock(u: User): string
  {
    Block("rollbar_user", SanitizeIdentifier(u.username), UserAttributes(u))
  }

  function UserBlocks(users: seq<User>): seq<string>
  {
    seq(|users|, i requires 0 <= i < |users| => UserBlock(users[i]))
  }

  /** One user import line (writer/writer.go:206-207). */
  function UserImport(u: User): string
  {
    ImportCommand(Address("rollbar_user", SanitizeIdentifier(u.username)), Itoa(u.id))
  }

  function UserImports(users: seq<User>): seq<string>
  {
    seq(|users|, i requires 0 <= i < |users| => UserImport(users[i]))
  }
}
