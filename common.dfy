/** Values shared by several components: optional fields, JavaScript's `x || d`
    defaulting, and the project row that the data store returns. */
module Common {

  datatype Option<T> = None | Some(value: T)

  /** JavaScript `x || d` for a string that may be missing: a missing value and the
      empty string are both falsy, so both give `d`. */
  function OrDefault(x: Option<string>, d: string): (r: string)
    ensures r == d || (x.Some? && r == x.value && r != "")
    ensures x.Some? && x.value != "" ==> r == x.value
  {
    if x.Some? && x.value != "" then x.value else d
  }

  /** JavaScript `xs || []` for a list that may be missing (an empty array is truthy,
      which makes no difference here). */
  function ListOrEmpty<T>(xs: Option<seq<T>>): (r: seq<T>)
    ensures xs.None? ==> r == []
    ensures xs.Some? ==> r == xs.value
  {
    if xs.Some? then xs.value else []
  }

  /** A row of the `projects` table as the front end receives it. Every column
      except `id` may be null or absent. */
  datatype Project = Project(
    id: string,
    title: Option<string>,
    description: Option<string>,
    techStack: Option<seq<string>>,
    category: Option<string>,
    imageUrl: Option<string>,
    liveUrl: Option<string>,
    githubUrl: Option<string>)

  /** What a data-store query resolves to: a response carrying an error flag and
      possibly null data, or a thrown exception. */
  datatype Fetched<T> = Response(error: bool, data: Option<seq<T>>) | Thrown

  /** The components' test `!error && data && data.length > 0`. */
  predicate HasRows<T>(f: Fetched<T>)
  {
    f.Response? && !f.error && f.data.Some? && |f.data.value| > 0
  }
}
