/**
 * The project status values a `projects` record carries. The pages compare the
 * status as a free-form string against these four keys; any other string is
 * possible in the data and is handled by each page's default branch.
 */
module Status {

  const Draft: string := "draft"
  const Processing: string := "processing"
  const Completed: string := "completed"
  const Error: string := "error"

  /** One of the four keys the pages' switches name. */
  predicate IsKnown(s: string)
  {
    s == Draft || s == Processing || s == Completed || s == Error
  }
}
