/** Selecting the one artifact of a workflow run that a retry policy names, out of a paged listing.

    A field that is missing or of the wrong type is None; an item or page that is not the expected
    kind of JSON value is Malformed. */
module ArtifactSelection {
  import Characters
  import opened Results

  datatype WorkflowRun = WorkflowRun(id: Option<int>, headSha: Option<string>)

  datatype Item =
    | Malformed
    | Artifact(id: Option<int>, name: Option<string>, expired: Option<bool>, digest: Option<string>,
               size: Option<int>, run: Option<WorkflowRun>)

  datatype Page = MalformedPage | Page(total: Option<int>, artifacts: seq<Item>)

  datatype Policy = ExactCurrent | ExactRunId | SingleRetained | LatestRetained | Unregistered

  datatype Query = Query(policy: Policy, prefix: string, runId: int, releaseSha: string, maximumAttempt: int)

  datatype Selection = Selection(metadata: Item, producerAttempt: int)

  datatype Candidate = Candidate(attempt: nat, item: Item)

  // ---- Names and digests --------------------------------------------------------------------

  predicate IsPrefix(s: string) {
    && 1 <= |s| <= 171
    && (forall i | 0 <= i < |s| ::
          Characters.IsDigit(s[i]) || 'A' <= s[i] <= 'Z' || 'a' <= s[i] <= 'z' || (i > 0 && s[i] in {'.', '_', '-'}))
  }

  predicate IsSha256(s: string) {
    |s| == 71 && s[..7] == "sha256:" && Characters.IsHexText(s[7..], 64)
  }

  /** A decimal number of at least one, without leading zeros. */
  predicate IsAttempt(s: string) {
    s != "" && s[0] != '0' && forall i | 0 <= i < |s| :: Characters.IsDigit(s[i])
  }

  function Decimal(s: string): nat
    requires forall i :: 0 <= i < |s| ==> Characters.IsDigit(s[i])
  {
    if s == "" then 0
    else
      assert Characters.IsDigit(s[|s| - 1]);
      Decimal(s[..|s| - 1]) * 10 + (s[|s| - 1] as int - '0' as int)
  }

  predicate ValidQuery(q: Query) {
    !q.policy.Unregistered? && IsPrefix(q.prefix) && q.runId > 0 && Characters.IsHexText(q.releaseSha, 40) &&
    q.maximumAttempt > 0
  }

  // ---- Items --------------------------------------------------------------------------------

  predicate Registered(q: Query, item: Item) {
    item.Artifact? && item.name.Some? && q.prefix <= item.name.value
  }

  /** The attempt a registered name ends with. */
  function Attempt(q: Query, item: Item): Option<nat> {
    if Registered(q, item) && IsAttempt(item.name.value[|q.prefix|..]) then Some(Decimal(item.name.value[|q.prefix|..]))
    else None
  }

  function Id(item: Item): Option<int> {
    if item.Artifact? then item.id else None
  }

  predicate HasId(item: Item) {
    Id(item).Some? && Id(item).value > 0
  }

  predicate Acceptable(q: Query, item: Item) {
    && HasId(item)
    && (Registered(q, item) ==>
          && |item.name.value| <= 181
          && Attempt(q, item).Some?
          && (q.policy != ExactRunId ==> Attempt(q, item).value <= q.maximumAttempt))
  }

  predicate DistinctIds(items: seq<Item>) {
    forall i, j | 0 <= i < j < |items| :: Id(items[i]) != Id(items[j])
  }

  function Candidates(q: Query, items: seq<Item>): seq<Candidate> {
    if items == [] then []
    else
      var n := |items| - 1;
      Candidates(q, items[..n]) +
      (if Attempt(q, items[n]).Some? then [Candidate(Attempt(q, items[n]).value, items[n])] else [])
  }

  // ---- Selection ----------------------------------------------------------------------------

  function Latest(candidates: seq<Candidate>): (m: nat)
    ensures forall i :: 0 <= i < |candidates| ==> candidates[i].attempt <= m
    ensures candidates != [] ==> exists i :: 0 <= i < |candidates| && candidates[i].attempt == m
  {
    if candidates == [] then 0
    else
      var n := |candidates| - 1;
      var m := Latest(candidates[..n]);
      if n == 0 || candidates[n].attempt > m then candidates[n].attempt else m
  }

  predicate Eligible(q: Query, latest: nat, c: Candidate) {
    match q.policy
    case ExactCurrent => c.attempt == q.maximumAttempt
    case ExactRunId => c.attempt == q.runId
    case SingleRetained => true
    case LatestRetained => c.attempt == latest
    case Unregistered => false
  }

  function Eligibles(q: Query, latest: nat, candidates: seq<Candidate>): seq<Candidate> {
    if candidates == [] then []
    else
      var n := |candidates| - 1;
      Eligibles(q, latest, candidates[..n]) + (if Eligible(q, latest, candidates[n]) then [candidates[n]] else [])
  }

  /** What the selected artifact itself must be. */
  predicate Retrievable(q: Query, item: Item) {
    && HasId(item)
    && item.expired == Some(false)
    && item.digest.Some? && IsSha256(item.digest.value)
    && item.size.Some? && 0 < item.size.value <= 52_428_800
    && item.run == Some(WorkflowRun(Some(q.runId), Some(q.releaseSha)))
  }

  function Items(pages: seq<Page>): seq<Item> {
    if pages == [] then []
    else
      var n := |pages| - 1;
      Items(pages[..n]) + (if pages[n].Page? then pages[n].artifacts else [])
  }

  function Total(page: Page): Option<int> {
    if page.Page? then page.total else None
  }

  /** The page declares the total `expected`. */
  predicate Declares(page: Page, expected: Option<int>) {
    Total(page).Some? && Total(page).value >= 0 && Total(page) == expected
  }

  /** The listing is complete: pages agree on a total, and it is the number of items. */
  predicate Complete(pages: seq<Page>) {
    && pages != []
    && (forall i | 0 <= i < |pages| :: Declares(pages[i], Total(pages[0])))
    && Total(pages[0]) == Some(|Items(pages)|)
  }

  predicate AllAcceptable(q: Query, items: seq<Item>) {
    (forall i | 0 <= i < |items| :: Acceptable(q, items[i])) && DistinctIds(items)
  }

  function ProducerAttempt(q: Query, c: Candidate): int {
    if q.policy == ExactRunId then q.maximumAttempt else c.attempt
  }

  function Selected(pages: seq<Page>, q: Query): Result<Selection> {
    if !ValidQuery(q) || !Complete(pages) || !AllAcceptable(q, Items(pages)) then Raised
    else
      var candidates := Candidates(q, Items(pages));
      var eligible := Eligibles(q, Latest(candidates), candidates);
      if |eligible| != 1 || !Retrievable(q, eligible[0].item) then Raised
      else Returned(Selection(eligible[0].item, ProducerAttempt(q, eligible[0])))
  }

  ghost predicate IdsOf(items: seq<Item>, ids: set<int>) {
    && (forall i :: 0 <= i < |items| && Id(items[i]).Some? ==> Id(items[i]).value in ids)
    && (forall id :: id in ids ==> exists i :: 0 <= i < |items| && Id(items[i]) == Some(id))
  }

  lemma AcceptablePrefix(q: Query, items: seq<Item>, more: seq<Item>)
    requires items <= more && AllAcceptable(q, more)
    ensures AllAcceptable(q, items)
  {
    assert forall i :: 0 <= i < |items| ==> items[i] == more[i];
  }

  lemma AcceptableSnoc(q: Query, items: seq<Item>, ids: set<int>, item: Item)
    requires AllAcceptable(q, items) && IdsOf(items, ids)
    ensures AllAcceptable(q, items + [item]) <==> Acceptable(q, item) && Id(item).value !in ids
    ensures Id(item).Some? ==> IdsOf(items + [item], ids + {Id(item).value})
    ensures Candidates(q, items + [item]) ==
            Candidates(q, items) + (if Attempt(q, item).Some? then [Candidate(Attempt(q, item).value, item)] else [])
  {
    hide Acceptable, Attempt;
    var all, n := items + [item], |items|;
    assert all[..n] == items && all[n] == item;
    assert forall i :: 0 <= i < n ==> all[i] == items[i];
    AcceptableHasId(q, item);
    if AllAcceptable(q, all) {
      assert Acceptable(q, all[n]);
      var id := Id(item).value;
      forall i | 0 <= i < n
        ensures Id(items[i]) != Some(id)
      {
        assert Id(all[i]) != Id(all[n]);
      }
      assert id !in ids;
    }
  }

  lemma AcceptableHasId(q: Query, item: Item)
    ensures Acceptable(q, item) ==> Id(item).Some?
  {
  }

  /** Read one page's items after those of the pages before it. */
  method ReadItems(q: Query, artifacts: seq<Item>, ghost before: seq<Item>, ids: set<int>, candidates: seq<Candidate>)
    returns (ok: bool, ids': set<int>, candidates': seq<Candidate>)
    requires AllAcceptable(q, before) && IdsOf(before, ids) && candidates == Candidates(q, before)
    ensures ok <==> AllAcceptable(q, before + artifacts)
    ensures ok ==> IdsOf(before + artifacts, ids') && candidates' == Candidates(q, before + artifacts)
  {
    hide AllAcceptable, IdsOf, Candidates;
    ok, ids', candidates' := false, ids, candidates;
    assert before + artifacts[..0] == before;
    for j := 0 to |artifacts|
      invariant !ok && AllAcceptable(q, before + artifacts[..j]) && IdsOf(before + artifacts[..j], ids')
      invariant candidates' == Candidates(q, before + artifacts[..j])
    {
      var artifact := artifacts[j];
      ghost var seen, more := before + artifacts[..j], before + artifacts[..j + 1];
      assert more == seen + [artifact];
      AcceptableSnoc(q, seen, ids', artifact);
      if AllAcceptable(q, before + artifacts) {
        AcceptablePrefix(q, more, before + artifacts);
      }
      if !HasId(artifact) || Id(artifact).value in ids' {
        return;
      }
      ids' := ids' + {Id(artifact).value};
      if artifact.name.None? || !(q.prefix <= artifact.name.value) {
        continue;
      }
      if |artifact.name.value| > 181 || Attempt(q, artifact).None? {
        return;
      }
      if q.policy != ExactRunId && Attempt(q, artifact).value > q.maximumAttempt {
        return;
      }
      candidates' := candidates' + [Candidate(Attempt(q, artifact).value, artifact)];
    }
    assert artifacts[..|artifacts|] == artifacts;
    ok := true;
  }

  method CollectCandidates(q: Query, pages: seq<Page>) returns (r: Result<seq<Candidate>>)
    requires pages != []
    ensures r.Returned? <==> Complete(pages) && AllAcceptable(q, Items(pages))
    ensures r.Returned? ==> r.value == Candidates(q, Items(pages))
  {
    hide AllAcceptable, IdsOf, Candidates;
    var candidates: seq<Candidate>, ids: set<int>, collected := [], {}, 0;
    NothingSeen(q);
    for i := 0 to |pages|
      invariant forall k :: 0 <= k < i ==> Declares(pages[k], Total(pages[0]))
      invariant AllAcceptable(q, Items(pages[..i])) && IdsOf(Items(pages[..i]), ids)
      invariant candidates == Candidates(q, Items(pages[..i])) && collected == |Items(pages[..i])|
    {
      if !Declares(pages[i], Total(pages[0])) {
        return Raised;
      }
      assert pages[..i + 1][..i] == pages[..i];
      var ok;
      ok, ids, candidates := ReadItems(q, pages[i].artifacts, Items(pages[..i]), ids, candidates);
      if !ok {
        ItemsPrefix(pages, i + 1);
        if AllAcceptable(q, Items(pages)) {
          AcceptablePrefix(q, Items(pages[..i + 1]), Items(pages));
        }
        return Raised;
      }
      collected := collected + |pages[i].artifacts|;
    }
    assert pages[..|pages|] == pages;
    r := if Total(pages[0]) == Some(collected) then Returned(candidates) else Raised;
  }

  lemma NothingSeen(q: Query)
    ensures AllAcceptable(q, []) && IdsOf([], {}) && Candidates(q, []) == []
  {
  }

  method SelectRunArtifact(pages: seq<Page>, q: Query) returns (r: Result<Selection>)
    ensures r == Selected(pages, q)
  {
    if !ValidQuery(q) || pages == [] {
      return Raised;
    }
    var candidates :- CollectCandidates(q, pages);
    var latest := Latest(candidates);
    var eligible: seq<Candidate> := [];
    for i := 0 to |candidates|
      invariant eligible == Eligibles(q, latest, candidates[..i])
    {
      assert candidates[..i + 1][..i] == candidates[..i];
      if Eligible(q, latest, candidates[i]) {
        eligible := eligible + [candidates[i]];
      }
    }
    assert candidates[..|candidates|] == candidates;
    if |eligible| != 1 || !Retrievable(q, eligible[0].item) {
      return Raised;
    }
    r := Returned(Selection(eligible[0].item, ProducerAttempt(q, eligible[0])));
  }

  lemma {:induction false} ItemsPrefix(pages: seq<Page>, n: nat)
    requires n <= |pages|
    ensures Items(pages[..n]) <= Items(pages)
    decreases |pages|
  {
    if n == |pages| {
      assert pages[..n] == pages;
    } else {
      var front := pages[..|pages| - 1];
      assert front[..n] == pages[..n];
      ItemsPrefix(front, n);
    }
  }

  // ---- The choice ---------------------------------------------------------------------------

  lemma {:induction false} CandidateCount(q: Query, items: seq<Item>, c: Candidate)
    ensures multiset(Candidates(q, items))[c] == if Attempt(q, c.item) == Some(c.attempt)
            then multiset(items)[c.item] else 0
  {
    if items != [] {
      var n := |items| - 1;
      CandidateCount(q, items[..n], c);
      assert items == items[..n] + [items[n]];
    }
  }

  lemma {:induction false} EligibleCount(q: Query, latest: nat, candidates: seq<Candidate>, c: Candidate)
    ensures multiset(Eligibles(q, latest, candidates))[c] ==
            if Eligible(q, latest, c) then multiset(candidates)[c] else 0
  {
    if candidates != [] {
      var n := |candidates| - 1;
      EligibleCount(q, latest, candidates[..n], c);
      assert candidates == candidates[..n] + [candidates[n]];
    }
  }

  lemma CandidatesForgetOrder(q: Query, items: seq<Item>, others: seq<Item>)
    requires multiset(items) == multiset(others)
    ensures multiset(Candidates(q, items)) == multiset(Candidates(q, others))
  {
    forall c
      ensures multiset(Candidates(q, items))[c] == multiset(Candidates(q, others))[c]
    {
      CandidateCount(q, items, c);
      CandidateCount(q, others, c);
    }
  }

  lemma LatestForgetsOrder(candidates: seq<Candidate>, others: seq<Candidate>)
    requires multiset(candidates) == multiset(others)
    ensures Latest(candidates) == Latest(others)
  {
    if candidates != [] {
      var i :| 0 <= i < |candidates| && candidates[i].attempt == Latest(candidates);
      assert candidates[i] in multiset(others);
      assert others != [];
      var j :| 0 <= j < |others| && others[j].attempt == Latest(others);
      assert others[j] in multiset(candidates);
    } else {
      assert |multiset(others)| == 0;
    }
  }

  lemma EligiblesForgetOrder(q: Query, latest: nat, candidates: seq<Candidate>, others: seq<Candidate>)
    requires multiset(candidates) == multiset(others)
    ensures multiset(Eligibles(q, latest, candidates)) == multiset(Eligibles(q, latest, others))
  {
    forall c
      ensures multiset(Eligibles(q, latest, candidates))[c] == multiset(Eligibles(q, latest, others))[c]
    {
      EligibleCount(q, latest, candidates, c);
      EligibleCount(q, latest, others, c);
    }
  }

  lemma SingletonForgetsOrder(a: seq<Candidate>, b: seq<Candidate>)
    requires multiset(a) == multiset(b)
    ensures |a| == |b| && (|a| == 1 ==> a == b)
  {
    assert |multiset(a)| == |a| && |multiset(b)| == |b|;
    if |a| == 1 {
      assert a[0] in multiset(b);
    }
  }

  lemma {:induction false} DistinctCount(items: seq<Item>, x: Item)
    requires forall i, j :: 0 <= i < j < |items| ==> items[i] != items[j]
    ensures multiset(items)[x] <= 1
  {
    if items != [] {
      var n := |items| - 1;
      assert items == items[..n] + [items[n]];
      DistinctCount(items[..n], x);
    }
  }

  lemma CountDistinct(items: seq<Item>, i: nat, j: nat)
    requires i < j < |items| && multiset(items)[items[i]] <= 1
    ensures items[i] != items[j]
  {
    if items[i] == items[j] {
      RepeatCount(items, i, j);
      assert false;
    }
  }

  lemma RepeatCount(items: seq<Item>, i: nat, j: nat)
    requires i < j < |items| && items[i] == items[j]
    ensures multiset(items)[items[i]] >= 2
  {
    assert items == items[..j] + [items[j]] + items[j + 1..];
    assert items[i] in items[..j];
  }

  /** Distinct ids make a listing free of repeats. */
  lemma NoRepeats(q: Query, items: seq<Item>, x: Item)
    requires AllAcceptable(q, items)
    ensures multiset(items)[x] <= 1
  {
    forall i, j | 0 <= i < j < |items|
      ensures items[i] != items[j]
    {
      assert Id(items[i]) != Id(items[j]);
    }
    DistinctCount(items, x);
  }

  lemma IdsDiffer(q: Query, items: seq<Item>, x: Item, y: Item)
    requires AllAcceptable(q, items) && x in items && y in items && x != y
    ensures Id(x) != Id(y)
  {
    var k :| 0 <= k < |items| && items[k] == x;
    var l :| 0 <= l < |items| && items[l] == y;
    assert k < l ==> Id(items[k]) != Id(items[l]);
    assert l < k ==> Id(items[l]) != Id(items[k]);
  }

  lemma AcceptanceForgetsOrder(q: Query, items: seq<Item>, others: seq<Item>)
    requires multiset(items) == multiset(others) && AllAcceptable(q, items)
    ensures AllAcceptable(q, others)
  {
    forall i | 0 <= i < |others|
      ensures Acceptable(q, others[i]) && others[i] in items
    {
      assert others[i] in multiset(items);
      var k :| 0 <= k < |items| && items[k] == others[i];
    }
    forall i, j | 0 <= i < j < |others|
      ensures Id(others[i]) != Id(others[j])
    {
      NoRepeats(q, items, others[i]);
      CountDistinct(others, i, j);
      IdsDiffer(q, items, others[i], others[j]);
    }
  }

  /** The pages of a listing of `chunks` that declares `total` on each of them. */
  function Pages(total: Option<int>, chunks: seq<seq<Item>>): seq<Page> {
    seq(|chunks|, i requires 0 <= i < |chunks| => Page(total, chunks[i]))
  }

  /** The result depends only on which artifacts there are: listing them in another order, or split
      over other pages, gives the same selection, or fails in both cases. */
  lemma SelectionForgetsOrder(q: Query, total: Option<int>, chunks: seq<seq<Item>>, others: seq<seq<Item>>)
    requires chunks != [] && others != []
    requires multiset(Items(Pages(total, chunks))) == multiset(Items(Pages(total, others)))
    ensures Selected(Pages(total, chunks), q) == Selected(Pages(total, others), q)
  {
    hide Items, AllAcceptable, Candidates, Latest, Eligibles, Retrievable, ValidQuery;
    var pages, pages' := Pages(total, chunks), Pages(total, others);
    var items, items' := Items(pages), Items(pages');
    assert |multiset(items)| == |items| && |multiset(items')| == |items'|;
    CompleteIff(total, chunks);
    CompleteIff(total, others);
    if AllAcceptable(q, items) {
      AcceptanceForgetsOrder(q, items, items');
    }
    if AllAcceptable(q, items') {
      AcceptanceForgetsOrder(q, items', items);
    }
    var candidates, candidates' := Candidates(q, items), Candidates(q, items');
    CandidatesForgetOrder(q, items, items');
    LatestForgetsOrder(candidates, candidates');
    EligiblesForgetOrder(q, Latest(candidates), candidates, candidates');
    SingletonForgetsOrder(Eligibles(q, Latest(candidates), candidates), Eligibles(q, Latest(candidates), candidates'));
  }

  lemma CompleteIff(total: Option<int>, chunks: seq<seq<Item>>)
    requires chunks != []
    ensures Complete(Pages(total, chunks)) <==> total == Some(|Items(Pages(total, chunks))|)
  {
    hide Items;
    var pages := Pages(total, chunks);
    assert pages[0] == Page(total, chunks[0]);
  }

  /** `item` is the artifact the policy names: it is registered, its attempt is the one wanted, and
      no other item of the listing qualifies. */
  ghost predicate Named(q: Query, items: seq<Item>, k: nat) {
    && k < |items| && Attempt(q, items[k]).Some?
    && (q.policy == ExactCurrent ==>
          Attempt(q, items[k]) == Some(q.maximumAttempt) &&
          forall i :: 0 <= i < |items| && i != k ==> Attempt(q, items[i]) != Some(q.maximumAttempt))
    && (q.policy == ExactRunId ==>
          Attempt(q, items[k]) == Some(q.runId) &&
          forall i :: 0 <= i < |items| && i != k ==> Attempt(q, items[i]) != Some(q.runId))
    && (q.policy == SingleRetained ==>
          forall i :: 0 <= i < |items| && i != k ==> Attempt(q, items[i]).None?)
    && (q.policy == LatestRetained ==>
          forall i :: 0 <= i < |items| && i != k && Attempt(q, items[i]).Some? ==>
            Attempt(q, items[i]).value < Attempt(q, items[k]).value)
    && q.policy != Unregistered
  }

  lemma {:induction false} CandidateAt(q: Query, items: seq<Item>, k: nat)
    requires k < |items| && Attempt(q, items[k]).Some?
    ensures Candidate(Attempt(q, items[k]).value, items[k]) in Candidates(q, items)
  {
    CandidateCount(q, items, Candidate(Attempt(q, items[k]).value, items[k]));
    assert items[k] in multiset(items);
    assert Candidate(Attempt(q, items[k]).value, items[k]) in multiset(Candidates(q, items));
  }

  lemma CandidateIsItem(q: Query, items: seq<Item>, c: Candidate)
    requires c in Candidates(q, items)
    ensures Attempt(q, c.item) == Some(c.attempt) && c.item in items
  {
    CandidateCount(q, items, c);
    assert c in multiset(Candidates(q, items));
    assert c.item in multiset(items);
  }

  lemma EligibleIsCandidate(q: Query, latest: nat, candidates: seq<Candidate>, c: Candidate)
    ensures c in Eligibles(q, latest, candidates) <==> c in candidates && Eligible(q, latest, c)
  {
    EligibleCount(q, latest, candidates, c);
    assert c in multiset(Eligibles(q, latest, candidates)) <==> c in multiset(candidates) && Eligible(q, latest, c);
  }

  lemma {:induction false} SoleEligible(q: Query, latest: nat, candidates: seq<Candidate>, c: Candidate)
    requires c in candidates && Eligible(q, latest, c) && multiset(candidates)[c] == 1
    requires forall d :: d in candidates && Eligible(q, latest, d) ==> d == c
    ensures Eligibles(q, latest, candidates) == [c]
  {
    var eligible := Eligibles(q, latest, candidates);
    forall d
      ensures multiset(eligible)[d] == multiset([c])[d]
    {
      EligibleCount(q, latest, candidates, d);
      EligibleIsCandidate(q, latest, candidates, d);
    }
    assert multiset(eligible) == multiset([c]);
    SingletonForgetsOrder([c], eligible);
  }

  /** The item the policy names is the only eligible candidate. */
  lemma NamedIsEligible(q: Query, items: seq<Item>, k: nat)
    requires AllAcceptable(q, items) && Named(q, items, k)
    ensures var candidates := Candidates(q, items);
            Eligibles(q, Latest(candidates), candidates) == [Candidate(Attempt(q, items[k]).value, items[k])]
  {
    var candidates := Candidates(q, items);
    var latest, c := Latest(candidates), Candidate(Attempt(q, items[k]).value, items[k]);
    CandidateAt(q, items, k);
    NoRepeats(q, items, items[k]);
    CandidateCount(q, items, c);
    assert items[k] in multiset(items);
    var m :| 0 <= m < |candidates| && candidates[m].attempt == latest;
    CandidateIsItem(q, items, candidates[m]);
    forall d | d in candidates && Eligible(q, latest, d)
      ensures d == c
    {
      CandidateIsItem(q, items, d);
      var i :| 0 <= i < |items| && items[i] == d.item;
    }
    SoleEligible(q, latest, candidates, c);
  }

  /** Where one candidate alone is eligible, no other item yields an eligible one. */
  lemma OtherIsIneligible(q: Query, items: seq<Item>, c: Candidate, k: nat, i: nat)
    requires AllAcceptable(q, items) && k < |items| && items[k] == c.item
    requires var candidates := Candidates(q, items); Eligibles(q, Latest(candidates), candidates) == [c]
    requires i < |items| && i != k && Attempt(q, items[i]).Some?
    ensures var d, latest := Candidate(Attempt(q, items[i]).value, items[i]), Latest(Candidates(q, items));
            d.attempt <= latest && !Eligible(q, latest, d)
  {
    hide AllAcceptable, Attempt, Eligible;
    var candidates := Candidates(q, items);
    var latest, d := Latest(candidates), Candidate(Attempt(q, items[i]).value, items[i]);
    CandidateAt(q, items, i);
    EligibleIsCandidate(q, latest, candidates, d);
    assert d !in [c] by {
      NoRepeats(q, items, items[i]);
      if i < k {
        CountDistinct(items, i, k);
      } else {
        NoRepeats(q, items, items[k]);
        CountDistinct(items, k, i);
      }
    }
  }

  lemma EligibleIsNamed(q: Query, items: seq<Item>)
    requires AllAcceptable(q, items) && !q.policy.Unregistered?
    requires var candidates := Candidates(q, items); |Eligibles(q, Latest(candidates), candidates)| == 1
    ensures exists k: nat :: Named(q, items, k)
  {
    hide AllAcceptable, Attempt, Eligibles, Candidates;
    var candidates := Candidates(q, items);
    var latest := Latest(candidates);
    var c := Eligibles(q, latest, candidates)[0];
    assert Eligibles(q, latest, candidates) == [c];
    EligibleIsCandidate(q, latest, candidates, c);
    CandidateIsItem(q, items, c);
    var k: nat :| k < |items| && items[k] == c.item;
    forall i | 0 <= i < |items| && i != k && Attempt(q, items[i]).Some?
      ensures !Eligible(q, latest, Candidate(Attempt(q, items[i]).value, items[i]))
      ensures Attempt(q, items[i]).value <= latest
    {
      OtherIsIneligible(q, items, c, k, i);
    }
    assert Named(q, items, k);
  }

  /** Selection succeeds exactly when the listing is complete and acceptable and the policy names
      one item that can be retrieved; it then returns that item, under its own attempt or, for an
      exact run id, under the maximum attempt. No registered attempt then exceeds the maximum,
      outside the exact-run-id policy. */
  lemma SelectionIsNamed(pages: seq<Page>, q: Query)
    ensures Selected(pages, q).Returned? <==>
              && ValidQuery(q) && Complete(pages) && AllAcceptable(q, Items(pages))
              && exists k: nat :: Named(q, Items(pages), k) && Retrievable(q, Items(pages)[k])
    ensures forall k: nat :: Selected(pages, q).Returned? && Named(q, Items(pages), k) ==>
              Selected(pages, q) == Returned(Selection(Items(pages)[k],
                if q.policy == ExactRunId then q.maximumAttempt else Attempt(q, Items(pages)[k]).value))
    ensures Selected(pages, q).Returned? && q.policy != ExactRunId ==>
              forall i :: 0 <= i < |Items(pages)| && Registered(q, Items(pages)[i]) ==>
                Attempt(q, Items(pages)[i]).Some? && Attempt(q, Items(pages)[i]).value <= q.maximumAttempt
  {
    var items := Items(pages);
    if ValidQuery(q) && Complete(pages) && AllAcceptable(q, items) {
      forall k: nat | Named(q, items, k)
        ensures var candidates := Candidates(q, items);
                Eligibles(q, Latest(candidates), candidates) == [Candidate(Attempt(q, items[k]).value, items[k])]
      {
        NamedIsEligible(q, items, k);
      }
      var candidates := Candidates(q, items);
      if |Eligibles(q, Latest(candidates), candidates)| == 1 {
        EligibleIsNamed(q, items);
        assert forall i :: 0 <= i < |items| ==> Acceptable(q, items[i]);
      }
    }
  }
}
