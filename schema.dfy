/** The API objects of fetcher/schema.go, restricted to the fields that the
    renderer in writer/writer.go reads. Go's `int` is modelled by `int`: the
    renderer only prints these values, it never computes with them. */
module Schema {
  /** fetcher/schema.go:12-20. `access_token` is the token's secret value. */
  datatype AccessToken = AccessToken(
    accessToken: string,
    name: string,
    rateLimitWindowCount: int,
    rateLimitWindowSize: int)

  /** fetcher/schema.go:22-27. */
  datatype Project = Project(id: int, name: string, accessTokens: seq<AccessToken>)

  /** fetcher/schema.go:28-35. `projects` lists the IDs of the team's projects. */
  datatype Team = Team(id: int, name: string, projects: seq<int>)

  /** fetcher/schema.go:47-52. `teams` holds the user's teams, looked up by ID. */
  datatype User = User(id: int, email: string, username: string, teams: seq<Team>)
}
