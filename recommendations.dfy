/** The ticketing sink every recommendation ends in (utils.py, add_recommendation). */
module Recommendations {

  /** One Redmine issue: the project it is filed in, the advice it carries (subject and
      description, as an abstract record) and its category. */
  datatype Issue<A> = Issue(project: string, advice: A, categoryId: int)

  /** The Redmine server, seen only through the issues it has been asked to create.
      There is no deduplication: every call adds an issue. */
  class Redmine<A> {
    ghost var issued: seq<Issue<A>>

    constructor ()
      ensures issued == []
    {
      issued := [];
    }

    /** Creates one issue. A failure of the server is logged and swallowed by the source;
        the model records the request. */
    method AddRecommendation(project: string, advice: A, categoryId: int)
      modifies this
      ensures issued == old(issued) + [Issue(project, advice, categoryId)]
    {
      issued := issued + [Issue(project, advice, categoryId)];
    }
  }
}
