# rollbar-terraform-importer writer, in Dafny

This is a model of the renderer of rollbar-terraform-importer. The renderer
turns a Rollbar account into Terraform source, which it writes as
`resource` blocks. It also writes a script of `terraform import` commands.
The account is the projects with their access tokens, the teams and the
users, all already fetched.

The model is built from these modules:

- `Schema` holds the four input records: `AccessToken`, `Project`, `Team`
  and `User`. Only the fields the writer reads are kept.
- `Sanitize` models `sanitizeIdentifier`. The characters `.`, `/`, `,` and
  space become `_`, and backslash, `(`, `)` and `?` are deleted. The two
  regular-expression replacements are modelled as two character rewrites
  over `seq<char>`.
- `Strings` and `Strconv` model the library calls the writer makes:
  - string concatenation of a list;
  - Go's `strings.ReplaceAll`, which replaces leftmost matches without
    overlap;
  - `strconv.Itoa` as decimal rendering, with a parser as its inverse.
- `Render` holds the exact text that each `Write*` function appends, as
  functions of its inputs.
- `RenderFacts` and `ImportFacts` hold the properties of that text:
  - the project-to-team join;
  - the `depends_on` list;
  - the optional user lines;
  - the fact that every import command names the label of the block it
    imports.
- `Writer` is the imperative part. A `FileSystem` class holds the files as a
  map from names to contents. It has one method per `Write*` function, each
  with the source's loops:
  - `writeFile` opens with `O_APPEND|O_CREATE`. So a missing file starts
    empty and every write goes to its end.
  - Each writer is proved to change only its own file.
  - That file ends up as its old contents followed by the rendered text.
  - The strings built up in the source's loops are methods with their own
    loop invariants, proved equal to their `Render` definitions: the team
    list of a project, the team list of a user, and the user block.
- `Account` chains the writers in the order main.go calls them in its
  single-file mode.

Two behaviours of the source are kept as written:

- A project's `team_ids` list keeps its trailing `, ` before `]`. It has
  one entry for every occurrence of the project's ID in any team's project
  list, so a repeated ID gives a repeated entry.
- A user's `team_ids` value is written inside double quotes
  (writer/writer.go:139).

The project's `depends_on` list is also kept as written: line 88 deletes
every `.id` in the team list, which garbles the address of a team whose
sanitized name starts with `id` (see Findings). `Render.ProjectBlock`, and
through it `Writer.FileSystem.WriteProjects` and `Account.WriteSingleFile`,
writes that list. The corrected derivation, which deletes only the `.id`
that ends each entry, is `Render.DependsOn`. It is proved to give the list
of team addresses for every input, and the list as written is proved to
agree with it whenever no referencing team's name starts with `id`.

## Model

| member | source | states |
|---|---|---|
| Sanitize.SanitizeIdentifier | writer/writer.go:228-238 | the result contains none of `.` `/` `,` space `\` `(` `)` `?`, and is never longer than the input |
| Sanitize.ReplaceUnderscoredPointwise | writer/writer.go:230-231 | the first pass keeps the length; it maps each of `.` `/` `,` space to exactly one `_` and leaves every other character in place |
| Sanitize.StripInvalidMembers | writer/writer.go:234-235 | the second pass never lengthens the string; a character occurs in its result exactly when it occurs in the input and is not one of `\` `(` `)` `?` |
| Sanitize.SanitizeIsCharwise | writer/writer.go:228-237 | the two passes together equal one character-by-character map: `_` for the four underscored characters, nothing for the four stripped ones, and the character itself otherwise |
| Sanitize.SanitizeAppend | writer/writer.go:228-237 | sanitizing a concatenation equals concatenating the sanitized parts, so the original order is kept |
| Sanitize.SanitizeKeepsClean | writer/writer.go:228-237 | a string with none of the eight characters is returned unchanged |
| Sanitize.SanitizeIdempotent | writer/writer.go:228-237 | sanitizing twice gives the same result as sanitizing once |
| Sanitize.SanitizeLength | writer/writer.go:228-237 | the result is exactly as much shorter than the input as the input has stripped characters |
| Strconv.Itoa | writer/writer.go:51-52 | the decimal text is non-empty, starts with `-` exactly for negative numbers, and otherwise holds only digits, so it contains no space |
| Strconv.ItoaRoundTrip | writer/writer.go:162 | parsing the decimal text gives back the integer |
| Strings.ReplaceAllSkips | writer/writer.go:88 | a prefix that holds no character starting the pattern passes through `strings.ReplaceAll` unchanged |
| RenderFacts.MatchesRepeat | writer/writer.go:72-76 | scanning one team's project IDs adds that team once per occurrence of the project's ID, so a repeated ID gives a repeated entry |
| RenderFacts.ReferencingTeamsMembers | writer/writer.go:71-78 | a team is listed for a project exactly when it is one of the teams and its project list holds the project's ID |
| RenderFacts.TeamIDListEmpty | writer/writer.go:70-84 | the team list is `[]` exactly when no team's project list holds the project's ID |
| RenderFacts.JoinTeamRefsEmpty | writer/writer.go:70-79 | the entries between the brackets are empty exactly when no team is listed |
| RenderFacts.DependsOnStripsIdSuffix | writer/writer.go:84-89 | the corrected `depends_on` derivation removes exactly the `.id` suffix of every entry of the team list: it turns `[rollbar_team.<n>.id, ...]` into `[rollbar_team.<n>, ...]` for every team name |
| RenderFacts.DependsOnAsWrittenAgrees | writer/writer.go:88 | when no listed team's sanitized name starts with `id`, the source's own `ReplaceAll(list, ".id", "")` gives the intended list |
| RenderFacts.DependsOnAsWrittenMangles | writer/writer.go:88 | for one team whose sanitized name starts with `id`, the source's derivation gives `[rollbar_team<name without its first two letters>, ]`, while the intended list is `[rollbar_team.<name>, ]` |
| RenderFacts.DependsOnAsWrittenDiffers | writer/writer.go:88 | in that case the source's list is three characters shorter than the intended one, so the two differ |
| RenderFacts.ProjectBlockShape | writer/writer.go:83-94 | with no team referencing the project the block holds only the `name` line; otherwise it holds `name`, `team_ids` with the team list and `depends_on` with that list after every `.id` is deleted, which is the list of team addresses when no referencing team's sanitized name starts with `id` |
| RenderFacts.UserBlockAttributes | writer/writer.go:134-141 | the attributes start with the `email` line exactly when the email is non-empty; the `team_ids` line closes the attributes when the user has a team, and is absent when there is none |
| ImportFacts.ParseImportCommand | writer/writer.go:160-163 | an import line splits back into the address and the target it was built from |
| ImportFacts.BlockFrame | writer/writer.go:45-53 | every block starts with its `resource "<kind>" "<label>" {` header and ends with `}` and a blank line |
| ImportFacts.ProjectImportsMatchBlocks | writer/writer.go:175-183 | there is one import line per project block, in the same order; line i imports `rollbar_project.<label of block i>` with the project's decimal ID |
| ImportFacts.TeamImportsMatchBlocks | writer/writer.go:189-197 | there is one import line per team block, in the same order; line i imports `rollbar_team.<label of block i>` with the team's decimal ID |
| ImportFacts.UserImportsMatchBlocks | writer/writer.go:203-211 | there is one import line per user block, in the same order; line i imports `rollbar_user.<label of block i>` with the user's decimal ID |
| ImportFacts.AccessTokenImportsMatchBlocks | writer/writer.go:156-168 | there is one import line per access-token block, both in the same (project, token) order; line k imports `rollbar_project_access_token.<label of block k>` with target `<project ID>/<token value>` |
| ImportFacts.AccessTokenPairsMembers | writer/writer.go:43-44 | the (project, token) pairs rendered are exactly those of a project and one of its own tokens |
| ImportFacts.CleanTokenLabel | writer/writer.go:46-47 | an access-token label `<sanitized project>_<sanitized token>` is itself a clean identifier |
| Writer.ProjectTeamIDs | writer/writer.go:69-79 | the nested loop builds `[`, then one `rollbar_team.<sanitized name>.id, ` per occurrence of the project's ID in each team's project list in team order, then `]` |
| Writer.UserTeamIDs | writer/writer.go:128-132 | the loop builds `[`, then one `rollbar_team.<sanitized name>.id, ` per team of the user in order, then `]` |
| Writer.UserResource | writer/writer.go:134-141 | the block grown line by line equals the user block |
| Writer.FileSystem.OpenAppend | writer/writer.go:216-224 | opening keeps an existing file's contents, creates a missing file empty, and changes no other file |
| Writer.FileSystem.WriteString | writer/writer.go:216-218 | a write to a file opened for appending adds the text at its end and changes no other file |
| Writer.FileSystem.WriteProviderBlocks | writer/writer.go:16-33 | the file gains exactly the provider boilerplate after its old contents; no other file changes |
| Writer.FileSystem.WriteProjectAccessTokens | writer/writer.go:40-59 | the file gains one access-token block per (project, token) pair, in nested order, after its old contents; no other file changes |
| Writer.FileSystem.WriteProjectAccessTokensOf | writer/writer.go:44-55 | the inner loop for one project appends that project's token blocks in order |
| Writer.FileSystem.WriteProjects | writer/writer.go:66-99 | the file gains one project block per project, in order, after its old contents, with `depends_on` derived as line 88 derives it; no other file changes |
| Writer.FileSystem.WriteTeams | writer/writer.go:106-117 | the file gains one team block per team, in order, after its old contents; no other file changes |
| Writer.FileSystem.WriteUsers | writer/writer.go:124-149 | the file gains one user block per user, in order, after its old contents; no other file changes |
| Writer.FileSystem.WriteProjectAccessTokenImportCommands | writer/writer.go:156-168 | the file gains one import line per (project, token) pair, in the order of the blocks; no other file changes |
| Writer.FileSystem.WriteProjectAccessTokenImportCommandsOf | writer/writer.go:159-164 | the inner loop for one project appends that project's token import lines in order |
| Writer.FileSystem.WriteProjectImportCommands | writer/writer.go:175-183 | the file gains one import line per project, in order; no other file changes |
| Writer.FileSystem.WriteTeamImportCommands | writer/writer.go:189-197 | the file gains one import line per team, in order; no other file changes |
| Writer.FileSystem.WriteUserImportCommands | writer/writer.go:203-211 | the file gains one import line per user, in order; no other file changes |
| Writer.AppendTwice | writer/writer.go:216-218 | two appends to the same file amount to one append of both texts |
| Account.WriteImports | main.go:74-77 | the import file gains the access-token, project, team and user import lines, in that order |
| Account.WriteSingleFile | main.go:61-78 | `rollbar_account.tf` gains the provider, team, project, access-token and user blocks in that order; `import` gains the import lines; no other file changes |

## Left out

- The fetcher (fetcher/fetcher.go) is not part of this model. It covers the HTTP requests to the Rollbar API, JSON decoding and the exit on API errors. The writers take the fetched records as parameters.
- fetcher/schema.go contributes only the record types. Its JSON tags, and the fields the writer never reads (`ProjectID`, `Scopes`, `Token`, `AccountID`, `AccessLevel`, `Users`), affect decoding only.
- main.go's flag parsing, validation, directory check, console colours and exit codes are left out, because they are plumbing around the writers.
- main.go's default mode (main.go:79-97) is left out. It makes the same calls as the single-file mode, on one file per kind of resource.
- OS failures are left out as I/O: `OpenFile` failing and the exit through `log.Fatal` (writer/writer.go:219-221, 142-145). A write is assumed to succeed.
- `Sync` and `Close` are left out as I/O. The file's contents are the model's state.
- The Go regular-expression engine and UTF-8 decoding are left out. Strings are sequences of characters, and the two character classes of `sanitizeIdentifier` are matched by the two predicates `IsUnderscored` and `IsStripped`.
- `strconv.Itoa` is modelled as decimal rendering of unbounded integers. Go's `int` is 64 bits wide, and every such value renders the same way here, so the width does not matter.

## Findings

| source | as written | input that shows it | evidently intended | confidence | as-written member | corrected member |
|---|---|---|---|---|---|---|
| writer/writer.go:88 | `depends_on` is the team list with every `.id` removed. This also matches the `.` after `rollbar_team` when a team's sanitized name starts with `id`. | A project with ID 1 and one team named `identity` whose project list is `[1]`. The team list is `[rollbar_team.identity.id, ]`, and `depends_on` becomes `[rollbar_teamentity, ]`, which names no resource. | Only the `.id` suffix of each entry is removed, giving `[rollbar_team.identity, ]`. | not executed | RenderFacts.DependsOnAsWrittenMangles | RenderFacts.DependsOnStripsIdSuffix |
