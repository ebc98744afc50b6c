/** The referrals page: the search over referrers, the rank colours of the
    leaderboard and the per-month average in the detail panel. */
module ReferralsPage {
  import opened Common
  import opened Search

  /** The fields of a referrer the page reads */
  datatype Referrer = Referrer(name: string, code: string, referrals: int, rank: int)

  function ReferrerSearchFields(r: Referrer): seq<Option<string>> {
    [Some(r.name), Some(r.code)]
  }

  /** `filteredReferrers` */
  function FilterReferrers(referrers: seq<Referrer>, query: string): seq<Referrer> {
    SearchFilter(referrers, query, ReferrerSearchFields)
  }

  /** An empty query keeps every referrer; otherwise exactly those whose
      name or code holds the query, ignoring case, stay, in their order */
  lemma ReferrerSearchSpec(referrers: seq<Referrer>, query: string)
    ensures query == "" ==> FilterReferrers(referrers, query) == referrers
    ensures query != "" ==> forall r :: r in FilterReferrers(referrers, query) <==>
              r in referrers &&
              (Includes(Lower(r.name), Lower(query)) || Includes(Lower(r.code), Lower(query)))
    ensures IsSubseq(FilterReferrers(referrers, query), referrers)
  {
    SearchSpec(referrers, query, ReferrerSearchFields);
    forall r: Referrer
      ensures MatchesAny(ReferrerSearchFields(r), Lower(query)) <==>
              Includes(Lower(r.name), Lower(query)) || Includes(Lower(r.code), Lower(query))
    {
      var fields := ReferrerSearchFields(r);
      if Includes(Lower(r.name), Lower(query)) {
        assert fields[0].Some? && Includes(Lower(fields[0].value), Lower(query));
      } else if Includes(Lower(r.code), Lower(query)) {
        assert fields[1].Some? && Includes(Lower(fields[1].value), Lower(query));
      }
    }
  }

  /** `getRankColor`: the first three places are coloured, every other rank is black */
  function RankColor(rank: int): (color: string)
    ensures rank == 1 ==> color == "bg-yellow-500"
    ensures rank == 2 ==> color == "bg-gray-400"
    ensures rank == 3 ==> color == "bg-orange-600"
    ensures color == "bg-black" <==> rank !in {1, 2, 3}
  {
    if rank == 1 then "bg-yellow-500"
    else if rank == 2 then "bg-gray-400"
    else if rank == 3 then "bg-orange-600"
    else "bg-black"
  }

  /** "Avg. per month": `Math.floor(referrals / 6)` */
  function AvgPerMonth(referrals: int): (avg: int)
    ensures avg * 6 <= referrals < avg * 6 + 6
    ensures referrals >= 0 ==> 0 <= avg <= referrals
  {
    referrals / 6
  }
}
