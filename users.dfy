/** The admin students page (`src/pages/Users.tsx`): the student list, its search
    box and the counters above it. */
module Users {
  import opened Text
  import opened Seqs

  /** A student row as the page types it (the average score is a whole number here). */
  datatype User = User(id: int, name: string, email: string, enrolledCourses: int,
                       completedCourses: int, avgScore: int, joinDate: string)

  /** The search: the name or the email contains the query, ignoring case. */
  predicate Found(query: string, u: User) {
    Matches(u.name, query) || Matches(u.email, query)
  }

  /** `filteredUsers`. */
  function Filtered(users: seq<User>, query: string): (r: seq<User>)
    ensures IsSubsequence(r, users)
    ensures |r| <= |users|
    ensures forall i :: 0 <= i < |r| ==> Found(query, r[i])
    ensures forall i :: 0 <= i < |users| && Found(query, users[i]) ==> users[i] in r
    ensures forall x :: multiset(r)[x] == if Found(query, x) then multiset(users)[x] else 0
  {
    FilterIsSubsequence(users, u => Found(query, u));
    Filter(users, u => Found(query, u))
  }

  /** An empty query shows every student. */
  lemma EmptyQueryShowsAll(users: seq<User>)
    ensures Filtered(users, []) == users
  {
    forall i | 0 <= i < |users|
      ensures Found([], users[i])
    {
      MatchesFacts(users[i].name, []);
    }
    FilterAll(users, u => Found([], u));
  }

  /** The counters: total and active are both the number of loaded students,
      and the footer shows how many of them the search keeps. */
  datatype Counts = Counts(totalStudents: nat, activeStudents: nat, showing: nat)

  function CountsOf(users: seq<User>, query: string): (c: Counts)
    ensures c.totalStudents == c.activeStudents == |users|
    ensures c.showing <= c.totalStudents
    ensures query == [] ==> c.showing == c.totalStudents
  {
    EmptyQueryShowsAll(users);
    Counts(|users|, |users|, |Filtered(users, query)|)
  }

  /** What the load got: a failure (the request or `res.json()` threw), or
      `success` with `data.data`. */
  datatype Reply = Failure | Answer(success: bool, data: seq<User>)

  /** The list after the load: replaced only on success; loading ends always. */
  datatype View = View(loading: bool, users: seq<User>)

  function Load(before: seq<User>, reply: Reply): (v: View)
    ensures !v.loading
    ensures reply.Answer? && reply.success ==> v.users == reply.data
    ensures !(reply.Answer? && reply.success) ==> v.users == before
  {
    if reply.Answer? && reply.success then View(false, reply.data) else View(false, before)
  }
}
