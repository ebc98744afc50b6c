/** The client-side search box every list page applies to the rows it
    holds: an empty query keeps every row; otherwise a row stays when the
    lower-cased query occurs in one of its lower-cased searchable fields. */
module Search {
  import opened Common

  /** `f1?.toLowerCase().includes(q) || f2?.toLowerCase().includes(q) || …`;
      an undefined field never matches */
  predicate MatchesAny(fields: seq<Option<string>>, needle: string) {
    exists i :: 0 <= i < |fields| && fields[i].Some? && Includes(Lower(fields[i].value), needle)
  }

  /** The filter test for one page's rows */
  function Matcher<T>(needle: string, fieldsOf: T -> seq<Option<string>>): T -> bool {
    (row: T) => MatchesAny(fieldsOf(row), needle)
  }

  /** `rows.filter(row => !query || …)` */
  function SearchFilter<T>(rows: seq<T>, query: string, fieldsOf: T -> seq<Option<string>>): seq<T> {
    if query == "" then rows else Filter(rows, Matcher(Lower(query), fieldsOf))
  }

  /** What the search keeps, in the order the rows came */
  lemma SearchSpec<T>(rows: seq<T>, query: string, fieldsOf: T -> seq<Option<string>>)
    ensures query == "" ==> SearchFilter(rows, query, fieldsOf) == rows
    ensures query != "" ==> forall row :: row in SearchFilter(rows, query, fieldsOf) <==>
              row in rows && MatchesAny(fieldsOf(row), Lower(query))
    ensures IsSubseq(SearchFilter(rows, query, fieldsOf), rows)
  {
    if query == "" {
      SubseqRefl(rows);
    } else {
      forall row ensures row in SearchFilter(rows, query, fieldsOf) <==>
                         row in rows && MatchesAny(fieldsOf(row), Lower(query)) {
        FilterMembership(rows, Matcher(Lower(query), fieldsOf), row);
      }
      FilterKeepsOrder(rows, Matcher(Lower(query), fieldsOf));
    }
  }

  /** The search does not depend on the case of the query */
  lemma SearchIgnoresCase<T>(rows: seq<T>, query: string, fieldsOf: T -> seq<Option<string>>)
    ensures SearchFilter(rows, Lower(query), fieldsOf) == SearchFilter(rows, query, fieldsOf)
  {
    LowerIdempotent(query);
    assert Lower(query) == "" <==> query == "";
  }

  lemma {:induction false} SubseqRefl<T>(xs: seq<T>)
    ensures IsSubseq(xs, xs)
  {
    if xs != [] {
      SubseqRefl(xs[1..]);
    }
  }
}
