/** The draw of benchmark cases: round-robin over repositories, so that a short draw is still as
    varied as it can be. */
module Sampler {
  import opened Common

  datatype Case = Case(repo: string, id: string)

  // ---------- Cases by repository ----------

  /** The cases of one repository, in order. */
  function Of(cases: seq<Case>, repo: string): seq<Case> {
    if cases == [] then []
    else
      var c := cases[|cases| - 1];
      Of(cases[..|cases| - 1], repo) + if c.repo == repo then [c] else []
  }

  /** The repositories, in the order they first appear. */
  function Repos(cases: seq<Case>): seq<string> {
    if cases == [] then []
    else
      var repos, repo := Repos(cases[..|cases| - 1]), cases[|cases| - 1].repo;
      if repo in repos then repos else repos + [repo]
  }

  lemma {:induction false} ReposAreDistinct(cases: seq<Case>)
    ensures Distinct(Repos(cases))
    ensures forall repo :: repo in Repos(cases) <==> Of(cases, repo) != []
  {
    if cases != [] {
      ReposAreDistinct(cases[..|cases| - 1]);
    }
  }

  lemma {:induction false} OfConcat(a: seq<Case>, b: seq<Case>, repo: string)
    ensures Of(a + b, repo) == Of(a, repo) + Of(b, repo)
  {
    if b == [] {
      assert a + b == a;
    } else {
      var n := |b| - 1;
      OfConcat(a, b[..n], repo);
      assert (a + b)[..|a + b| - 1] == a + b[..n];
    }
  }

  lemma {:induction false} OfOne(c: Case, repo: string)
    ensures Of([c], repo) == if c.repo == repo then [c] else []
  {
    assert [c][..0] == [];
  }

  // ---------- The round-robin ----------

  predicate AllOf(cases: seq<Case>, repo: string) {
    forall c | c in cases :: c.repo == repo
  }

  /** Groups of cases, each of one repository, and the repositories distinct. */
  ghost predicate Grouped(repos: seq<string>, groups: seq<seq<Case>>) {
    && |repos| == |groups| && Distinct(repos)
    && forall i | 0 <= i < |groups| :: groups[i] != [] && AllOf(groups[i], repos[i])
  }

  /** What a group gives at a depth. */
  function At(group: seq<Case>, depth: nat): seq<Case> {
    if depth < |group| then [group[depth]] else []
  }

  /** The cases at one depth of the first k groups. */
  function Layer(groups: seq<seq<Case>>, depth: nat, k: nat): seq<Case>
    requires k <= |groups|
  {
    if k == 0 then []
    else Layer(groups, depth, k - 1) + At(groups[k - 1], depth)
  }

  function Layers(groups: seq<seq<Case>>, depth: nat): seq<Case> {
    if depth == 0 then [] else Layers(groups, depth - 1) + Layer(groups, depth - 1, |groups|)
  }

  /** Everything down to a depth, and the first k groups at that depth. */
  function Round(groups: seq<seq<Case>>, depth: nat, k: nat): seq<Case>
    requires k <= |groups|
  {
    Layers(groups, depth) + Layer(groups, depth, k)
  }

  /** How much of the i-th group is in it. */
  function Taken(groups: seq<seq<Case>>, depth: nat, k: nat, i: nat): nat
    requires i < |groups|
  {
    Min(|groups[i]|, if i < k then depth + 1 else depth)
  }

  lemma {:induction false} RepoOfGroup(repos: seq<string>, groups: seq<seq<Case>>, i: nat, j: nat, depth: nat)
    requires Grouped(repos, groups) && i < |groups| && j < |groups| && depth < |groups[j]|
    ensures groups[j][depth].repo == repos[i] <==> i == j
  {
    assert AllOf(groups[j], repos[j]) && groups[j][depth] in groups[j];
  }

  lemma {:induction false} OneMoreOf(before: seq<Case>, group: seq<Case>, depth: nat, repo: string, mine: bool)
    requires depth < |group| ==> (group[depth].repo == repo <==> mine)
    ensures !mine ==> Of(before + At(group, depth), repo) == Of(before, repo)
    ensures mine && Of(before, repo) == [] ==> Of(before + At(group, depth), repo) == At(group, depth)
  {
    OfConcat(before, At(group, depth), repo);
    if depth < |group| {
      OfOne(group[depth], repo);
    }
    assert Of(before, repo) + [] == Of(before, repo) && [] + At(group, depth) == At(group, depth);
  }

  /** At this depth, the repository's case is the i-th group's. */
  ghost predicate OnlyFrom(groups: seq<seq<Case>>, depth: nat, repo: string, i: nat) {
    forall j | 0 <= j < |groups| && depth < |groups[j]| :: groups[j][depth].repo == repo <==> j == i
  }

  lemma {:induction false} GroupedOnlyFrom(repos: seq<string>, groups: seq<seq<Case>>, depth: nat, i: nat)
    requires Grouped(repos, groups) && i < |groups|
    ensures OnlyFrom(groups, depth, repos[i], i)
  {
    forall j | 0 <= j < |groups| && depth < |groups[j]| ensures groups[j][depth].repo == repos[i] <==> j == i {
      RepoOfGroup(repos, groups, i, j, depth);
    }
  }

  /** Of the repository a layer holds what its group gives, once it has been reached. */
  ghost predicate LayerHas(groups: seq<seq<Case>>, depth: nat, repo: string, k: nat, i: nat)
    requires k <= |groups| && i < |groups|
  {
    Of(Layer(groups, depth, k), repo) == if i < k then At(groups[i], depth) else []
  }

  lemma {:induction false} LayerOfNext(groups: seq<seq<Case>>, depth: nat, repo: string, k: nat, i: nat)
    requires OnlyFrom(groups, depth, repo, i) && k < |groups| && i < |groups| && LayerHas(groups, depth, repo, k, i)
    ensures LayerHas(groups, depth, repo, k + 1, i)
  {
    OneMoreOf(Layer(groups, depth, k), groups[k], depth, repo, i == k);
  }

  lemma {:induction false} LayerOfNone(groups: seq<seq<Case>>, depth: nat, repo: string, i: nat)
    requires i < |groups|
    ensures LayerHas(groups, depth, repo, 0, i)
  {
  }

  lemma {:induction false} LayerOf(groups: seq<seq<Case>>, depth: nat, repo: string, k: nat, i: nat)
    requires OnlyFrom(groups, depth, repo, i) && k <= |groups| && i < |groups|
    ensures LayerHas(groups, depth, repo, k, i)
  {
    LayerOfNone(groups, depth, repo, i);
    if k > 0 {
      LayerOf(groups, depth, repo, k - 1, i);
      LayerOfNext(groups, depth, repo, k - 1, i);
    }
  }

  /** A beginning, and the next element if there is one. */
  lemma {:induction false} TakeMore<T>(s: seq<T>, n: nat, front: seq<T>, next: seq<T>)
    requires front == s[..Min(|s|, n)] && next == if n < |s| then [s[n]] else []
    ensures front + next == s[..Min(|s|, n + 1)]
  {
  }

  lemma {:induction false} OfMore(above: seq<Case>, layer: seq<Case>, repo: string, group: seq<Case>, depth: nat)
    requires Of(above, repo) == group[..Min(|group|, depth)]
    requires Of(layer, repo) == At(group, depth)
    ensures Of(above + layer, repo) == group[..Min(|group|, depth + 1)]
  {
    OfConcat(above, layer, repo);
    TakeMore(group, depth, Of(above, repo), Of(layer, repo));
  }

  lemma {:induction false} LayersOfNext(repos: seq<string>, groups: seq<seq<Case>>, depth: nat, i: nat)
    requires Grouped(repos, groups) && i < |groups|
    requires Of(Layers(groups, depth), repos[i]) == groups[i][..Min(|groups[i]|, depth)]
    ensures Of(Layers(groups, depth + 1), repos[i]) == groups[i][..Min(|groups[i]|, depth + 1)]
  {
    GroupedOnlyFrom(repos, groups, depth, i);
    LayerOf(groups, depth, repos[i], |groups|, i);
    OfMore(Layers(groups, depth), Layer(groups, depth, |groups|), repos[i], groups[i], depth);
  }

  lemma {:induction false} LayersOf(repos: seq<string>, groups: seq<seq<Case>>, depth: nat, i: nat)
    requires Grouped(repos, groups) && i < |groups|
    ensures Of(Layers(groups, depth), repos[i]) == groups[i][..Min(|groups[i]|, depth)]
  {
    if depth > 0 {
      LayersOf(repos, groups, depth - 1, i);
      LayersOfNext(repos, groups, depth - 1, i);
    }
  }

  /** Of each repository the draw holds a beginning. */
  lemma {:induction false} RoundOf(repos: seq<string>, groups: seq<seq<Case>>, depth: nat, k: nat, i: nat)
    requires Grouped(repos, groups) && k <= |groups| && i < |groups|
    ensures Of(Round(groups, depth, k), repos[i]) == groups[i][..Taken(groups, depth, k, i)]
  {
    LayersOf(repos, groups, depth, i);
    GroupedOnlyFrom(repos, groups, depth, i);
    LayerOf(groups, depth, repos[i], k, i);
    OfConcat(Layers(groups, depth), Layer(groups, depth, k), repos[i]);
    if i < k {
      TakeMore(groups[i], depth, Of(Layers(groups, depth), repos[i]), Of(Layer(groups, depth, k), repos[i]));
    }
  }

  // ---------- Lengths ----------

  /** The sum of the groups' sizes, each up to a cap, the first k groups up to one more. */
  function Total(groups: seq<seq<Case>>, n: nat, depth: nat, k: nat): nat
    requires n <= |groups|
  {
    if n == 0 then 0 else Total(groups, n - 1, depth, k) + Taken(groups, depth, k, n - 1)
  }

  lemma {:induction false} LayerLength(groups: seq<seq<Case>>, depth: nat, k: nat, n: nat)
    requires k <= n <= |groups|
    ensures Total(groups, n, depth, k) == Total(groups, n, depth, 0) + |Layer(groups, depth, k)|
  {
    if n > k {
      LayerLength(groups, depth, k, n - 1);
    } else if k > 0 {
      LayerLength(groups, depth, k - 1, n - 1);
      SameTotal(groups, n - 1, depth, k - 1, k);
    }
  }

  lemma {:induction false} SameTotal(groups: seq<seq<Case>>, n: nat, depth: nat, j: nat, k: nat)
    requires n <= |groups| && n <= j && n <= k
    ensures Total(groups, n, depth, j) == Total(groups, n, depth, k)
  {
    if n > 0 {
      SameTotal(groups, n - 1, depth, j, k);
    }
  }

  lemma {:induction false} FullLayer(groups: seq<seq<Case>>, n: nat, depth: nat, k: nat)
    requires n <= |groups| && n <= k
    ensures Total(groups, n, depth, k) == Total(groups, n, depth + 1, 0)
  {
    if n > 0 {
      FullLayer(groups, n - 1, depth, k);
    }
  }

  lemma {:induction false} LayersLength(groups: seq<seq<Case>>, depth: nat)
    ensures |Layers(groups, depth)| == Total(groups, |groups|, depth, 0)
  {
    if depth == 0 {
      NoTotal(groups, |groups|);
    } else {
      LayersLength(groups, depth - 1);
      LayerLength(groups, depth - 1, |groups|, |groups|);
      FullLayer(groups, |groups|, depth - 1, |groups|);
    }
  }

  lemma {:induction false} NoTotal(groups: seq<seq<Case>>, n: nat)
    requires n <= |groups|
    ensures Total(groups, n, 0, 0) == 0
  {
    if n > 0 {
      NoTotal(groups, n - 1);
    }
  }

  lemma {:induction false} RoundLength(groups: seq<seq<Case>>, depth: nat, k: nat)
    requires k <= |groups|
    ensures |Round(groups, depth, k)| == Total(groups, |groups|, depth, k)
  {
    LayersLength(groups, depth);
    LayerLength(groups, depth, k, |groups|);
  }

  lemma {:induction false} TotalGrows(groups: seq<seq<Case>>, n: nat, depth: nat, k: nat, cap: nat)
    requires n <= |groups| && depth < cap
    ensures Total(groups, n, depth, k) <= Total(groups, n, cap, 0)
  {
    if n > 0 {
      TotalGrows(groups, n - 1, depth, k, cap);
    }
  }

  // ---------- The draw ----------

  /** Where the round-robin stops: as soon as enough is drawn, or at the cap. */
  ghost predicate StopsAt(groups: seq<seq<Case>>, samples: int, cap: nat, depth: nat, k: nat) {
    && k <= |groups| && cap >= 1
    && if depth < cap then |Round(groups, depth, k)| == Max(0, samples) && k < |groups|
       else depth == cap && k == 0 && |Round(groups, depth, k)| <= Max(0, samples)
  }

  /** The draw is as long as asked for, or all that the cap leaves. */
  lemma {:induction false} DrawLength(groups: seq<seq<Case>>, samples: int, cap: nat, depth: nat, k: nat)
    requires StopsAt(groups, samples, cap, depth, k)
    ensures |Round(groups, depth, k)| == Min(Max(0, samples), Total(groups, |groups|, cap, 0))
  {
    RoundLength(groups, depth, k);
    if depth < cap {
      TotalGrows(groups, |groups|, depth, k, cap);
    }
  }

  /** Of each repository the draw holds a beginning, within the cap. */
  lemma {:induction false} DrawIsPrefix(repos: seq<string>, groups: seq<seq<Case>>, samples: int, cap: nat,
                                        depth: nat, k: nat, i: nat)
    requires Grouped(repos, groups) && StopsAt(groups, samples, cap, depth, k) && i < |groups|
    ensures Of(Round(groups, depth, k), repos[i]) <= groups[i] && |Of(Round(groups, depth, k), repos[i])| <= cap
  {
    RoundOf(repos, groups, depth, k, i);
  }

  /** No repository is more than one ahead of another, unless the other is used up. */
  lemma {:induction false} DrawIsBalanced(repos: seq<string>, groups: seq<seq<Case>>, samples: int, cap: nat,
                                          depth: nat, k: nat, i: nat, j: nat)
    requires Grouped(repos, groups) && StopsAt(groups, samples, cap, depth, k) && i < |groups| && j < |groups|
    ensures var x, y := |Of(Round(groups, depth, k), repos[i])|, |Of(Round(groups, depth, k), repos[j])|;
            x <= y + 1 || y == Min(|groups[j]|, cap)
  {
    RoundOf(repos, groups, depth, k, i);
    RoundOf(repos, groups, depth, k, j);
  }

  lemma {:induction false} FirstLayer(repos: seq<string>, groups: seq<seq<Case>>, k: nat)
    requires Grouped(repos, groups) && k <= |groups|
    ensures |Layer(groups, 0, k)| == k
  {
    if k > 0 {
      FirstLayer(repos, groups, k - 1);
    }
  }

  lemma {:induction false} LayersReachAll(repos: seq<string>, groups: seq<seq<Case>>, depth: nat)
    requires Grouped(repos, groups) && depth >= 1
    ensures |Layers(groups, depth)| >= |groups|
  {
    if depth == 1 {
      FirstLayer(repos, groups, |groups|);
    } else {
      LayersReachAll(repos, groups, depth - 1);
    }
  }

  lemma {:induction false} NoNewRepos(a: seq<Case>, b: seq<Case>)
    requires forall c | c in b :: c.repo in Repos(a)
    ensures Repos(a + b) == Repos(a)
  {
    if b == [] {
      assert a + b == a;
    } else {
      var n := |b| - 1;
      NoNewRepos(a, b[..n]);
      assert (a + b)[..|a + b| - 1] == a + b[..n];
      assert b[n] in b;
    }
  }

  lemma {:induction false} OneNewRepo(a: seq<Case>, c: Case)
    requires c.repo !in Repos(a)
    ensures Repos(a + [c]) == Repos(a) + [c.repo]
  {
    assert (a + [c])[..|a|] == a;
  }

  lemma {:induction false} NotBefore(names: seq<string>, k: nat)
    requires Distinct(names) && k < |names|
    ensures names[k] !in names[..k]
  {
  }

  lemma {:induction false} FirstLayerNext(repos: seq<string>, groups: seq<seq<Case>>, k: nat)
    requires Grouped(repos, groups) && k < |groups| && Repos(Layer(groups, 0, k)) == repos[..k]
    ensures Repos(Layer(groups, 0, k + 1)) == repos[..k + 1]
  {
    RepoOfGroup(repos, groups, k, k, 0);
    NotBefore(repos, k);
    OneNewRepo(Layer(groups, 0, k), groups[k][0]);
  }

  lemma {:induction false} FirstLayerRepos(repos: seq<string>, groups: seq<seq<Case>>, k: nat)
    requires Grouped(repos, groups) && k <= |groups|
    ensures Repos(Layer(groups, 0, k)) == repos[..k]
  {
    if k > 0 {
      FirstLayerRepos(repos, groups, k - 1);
      FirstLayerNext(repos, groups, k - 1);
    }
  }

  lemma {:induction false} LayerRepos(repos: seq<string>, groups: seq<seq<Case>>, depth: nat, k: nat, c: Case)
    requires Grouped(repos, groups) && k <= |groups| && c in Layer(groups, depth, k)
    ensures c.repo in repos
  {
    if c in Layer(groups, depth, k - 1) {
      LayerRepos(repos, groups, depth, k - 1, c);
    } else {
      assert c in groups[k - 1];
    }
  }

  lemma {:induction false} LayersRepos(repos: seq<string>, groups: seq<seq<Case>>, depth: nat)
    requires Grouped(repos, groups) && depth >= 1
    ensures Repos(Layers(groups, depth)) == repos
  {
    var above, layer := Layers(groups, depth - 1), Layer(groups, depth - 1, |groups|);
    if depth == 1 {
      FirstLayerRepos(repos, groups, |groups|);
      assert [] + layer == layer;
    } else {
      LayersRepos(repos, groups, depth - 1);
      forall c | c in layer ensures c.repo in repos {
        LayerRepos(repos, groups, depth - 1, |groups|, c);
      }
      NoNewRepos(above, layer);
    }
  }

  /** The draw reaches as many repositories as it can: exactly the first `samples` of them. */
  lemma {:induction false} DrawCovers(repos: seq<string>, groups: seq<seq<Case>>, samples: int, cap: nat, depth: nat,
                                      k: nat)
    requires Grouped(repos, groups) && StopsAt(groups, samples, cap, depth, k)
    ensures Repos(Round(groups, depth, k)) == repos[..Min(Max(0, samples), |repos|)]
  {
    if depth == 0 {
      FirstLayer(repos, groups, k);
      FirstLayerRepos(repos, groups, k);
      assert [] + Layer(groups, 0, k) == Layer(groups, 0, k);
    } else {
      LayersReachAll(repos, groups, depth);
      LayersRepos(repos, groups, depth);
      forall c | c in Layer(groups, depth, k) ensures c.repo in repos {
        LayerRepos(repos, groups, depth, k, c);
      }
      NoNewRepos(Layers(groups, depth), Layer(groups, depth, k));
    }
  }

  // ---------- The program ----------

  /** Cases put in groups, a group for each repository as it first appears. */
  method GroupByRepo(cases: seq<Case>) returns (repos: seq<string>, byRepo: map<string, seq<Case>>)
    ensures repos == Repos(cases)
    ensures forall repo :: repo in byRepo <==> repo in repos
    ensures forall repo | repo in byRepo :: byRepo[repo] == Of(cases, repo) != []
  {
    repos, byRepo := [], map[];
    for n := 0 to |cases|
      invariant repos == Repos(cases[..n])
      invariant forall repo :: repo in byRepo <==> repo in repos
      invariant forall repo | repo in byRepo :: byRepo[repo] == Of(cases[..n], repo) != []
      invariant forall repo :: repo !in byRepo ==> Of(cases[..n], repo) == []
    {
      var c := cases[n];
      assert cases[..n + 1][..n] == cases[..n];
      if c.repo !in byRepo {
        repos := repos + [c.repo];
        byRepo := byRepo[c.repo := [c]];
      } else {
        byRepo := byRepo[c.repo := byRepo[c.repo] + [c]];
      }
    }
    assert cases[..|cases|] == cases;
  }

  /** The groups in the order of their repositories. */
  function Groups(cases: seq<Case>): seq<seq<Case>> {
    seq(|Repos(cases)|, i requires 0 <= i < |Repos(cases)| => Of(cases, Repos(cases)[i]))
  }

  lemma {:induction false} GroupsAreGrouped(cases: seq<Case>)
    ensures Grouped(Repos(cases), Groups(cases))
  {
    ReposAreDistinct(cases);
    forall i, c | 0 <= i < |Repos(cases)| && c in Groups(cases)[i] ensures c.repo == Repos(cases)[i] {
      OfRepo(cases, Repos(cases)[i], c);
    }
  }

  lemma {:induction false} OfRepo(cases: seq<Case>, repo: string, c: Case)
    requires c in Of(cases, repo)
    ensures c.repo == repo
  {
    if c !in Of(cases[..|cases| - 1], repo) {
      assert c == cases[|cases| - 1];
    } else {
      OfRepo(cases[..|cases| - 1], repo, c);
    }
  }

  /** What a draw has to be, whatever the pool: a beginning of each repository's cases, within
      the cap; as many repositories as there can be, the first ones; and no repository more
      than one ahead of another that has more to give. */
  ghost predicate Diverse(cases: seq<Case>, samples: int, cap: nat, drawn: seq<Case>) {
    && |drawn| == Min(Max(0, samples), Total(Groups(cases), |Repos(cases)|, cap, 0))
    && Repos(drawn) == Repos(cases)[..Min(Max(0, samples), |Repos(cases)|)]
    && (forall repo | repo in Repos(cases) :: Of(drawn, repo) <= Of(cases, repo) && |Of(drawn, repo)| <= cap)
    && forall r, s | r in Repos(cases) && s in Repos(cases) ::
         |Of(drawn, r)| <= |Of(drawn, s)| + 1 || |Of(drawn, s)| == Min(|Of(cases, s)|, cap)
  }

  lemma {:induction false} DrawIsDiverse(cases: seq<Case>, samples: int, cap: nat, depth: nat, k: nat)
    requires StopsAt(Groups(cases), samples, cap, depth, k)
    ensures Diverse(cases, samples, cap, Round(Groups(cases), depth, k))
  {
    var repos, groups := Repos(cases), Groups(cases);
    GroupsAreGrouped(cases);
    DrawLength(groups, samples, cap, depth, k);
    DrawCovers(repos, groups, samples, cap, depth, k);
    var drawn := Round(groups, depth, k);
    forall repo | repo in repos ensures Of(drawn, repo) <= Of(cases, repo) && |Of(drawn, repo)| <= cap {
      var i: nat :| i < |repos| && repos[i] == repo;
      DrawIsPrefix(repos, groups, samples, cap, depth, k, i);
    }
    forall r, s | r in repos && s in repos
      ensures |Of(drawn, r)| <= |Of(drawn, s)| + 1 || |Of(drawn, s)| == Min(|Of(cases, s)|, cap)
    {
      var i: nat :| i < |repos| && repos[i] == r;
      var j: nat :| j < |repos| && repos[j] == s;
      DrawIsBalanced(repos, groups, samples, cap, depth, k, i, j);
    }
  }

  ghost predicate DrawnAt(groups: seq<seq<Case>>, samples: int, cap: nat, drawn: seq<Case>, depth: nat, k: nat) {
    StopsAt(groups, samples, cap, depth, k) && drawn == Round(groups, depth, k)
  }

  /** The round-robin, up to where it stops. */
  ghost predicate RoundRobin(groups: seq<seq<Case>>, samples: int, cap: nat, drawn: seq<Case>) {
    exists depth: nat, k: nat :: DrawnAt(groups, samples, cap, drawn, depth, k)
  }

  lemma {:induction false} DrawnIsDiverse(cases: seq<Case>, samples: int, cap: nat, drawn: seq<Case>, depth: nat,
                                          k: nat)
    requires DrawnAt(Groups(cases), samples, cap, drawn, depth, k)
    ensures RoundRobin(Groups(cases), samples, cap, drawn) && Diverse(cases, samples, cap, drawn)
  {
    DrawIsDiverse(cases, samples, cap, depth, k);
  }

  lemma {:induction false} RoundGrows(groups: seq<seq<Case>>, depth: nat, k: nat)
    ensures Round(groups, depth, 0) == Layers(groups, depth)
    ensures Round(groups, depth, |groups|) == Layers(groups, depth + 1)
    ensures k < |groups| ==> Round(groups, depth, k + 1) == Round(groups, depth, k) + At(groups[k], depth)
  {
    if k < |groups| {
      Assoc(Layers(groups, depth), Layer(groups, depth, k), At(groups[k], depth));
    }
  }

  /** A list up to an end, which counts from the back when it is negative. */
  function UpTo<T>(s: seq<T>, end: int): seq<T> {
    if end >= 0 then s[..Min(|s|, end)] else s[..Max(0, |s| + end)]
  }

  /** The draw itself: the round-robin, up to where it stops. */
  method DrawRepoDiverse(cases: seq<Case>, samples: int, maxPerRepo: int) returns (drawn: seq<Case>)
    ensures RoundRobin(Groups(cases), samples, Max(1, maxPerRepo), drawn)
    ensures Diverse(cases, samples, Max(1, maxPerRepo), drawn)
  {
    var repos, byRepo := GroupByRepo(cases);
    ghost var groups := Groups(cases);
    var cap := Max(1, maxPerRepo);
    drawn := [];
    for d := 0 to cap
      invariant drawn == Layers(groups, d) && |drawn| <= Max(0, samples)
    {
      RoundGrows(groups, d, 0);
      for i := 0 to |repos|
        invariant drawn == Round(groups, d, i) && |drawn| <= Max(0, samples)
      {
        if |drawn| >= samples {
          DrawnIsDiverse(cases, samples, cap, drawn, d, i);
          return;
        }
        var group := byRepo[repos[i]];
        assert group == groups[i];
        RoundGrows(groups, d, i);
        if d < |group| {
          drawn := drawn + [group[d]];
        }
      }
    }
    drawn := UpTo(drawn, samples);
    DrawnIsDiverse(cases, samples, cap, drawn, cap, 0);
  }
}
