/** Greedy clusters of near-duplicate messages, and what survives of each. */
module NearDuplicates {
  import opened Collections
  import opened StableSort
  import opened Messages
  import opened MinHash
  import opened HashCoefficients
  import opened HashTrace

  /** Whether one message counts as a near-duplicate of another. */
  type Similarity = (Message, Message) -> bool

  /** How texts are put in lower case, and how words are hashed. */
  datatype Hashing = Hashing(lower: string -> string, hash: HashFamily) {
    function WordsOf(m: Message): seq<string> { Words(lower(ExtractText(m.content))) }

    function SignatureOf(m: Message): (sig: seq<nat>)
      ensures |sig| == NUM_HASHES
    {
      Signature(WordsOf(m), hash)
    }
  }

  /** Messages whose signatures agree in at least the given share of their slots. */
  function BySlots(h: Hashing, threshold: real): Similarity {
    (a: Message, b: Message) => Agreement(h.SignatureOf(a), h.SignatureOf(b)) >= threshold
  }

  const DEDUP_THRESHOLD := 0.6

  // ---- Greedy clustering ------------------------------------------------------------

  /** The first representative before `r` stops at `from` that claims message `j`. */
  function FirstClaim(ms: seq<Message>, similar: Similarity, j: nat, from: nat): (r: nat)
    requires from <= j < |ms|
    ensures from <= r <= j
    decreases j, j - from
  {
    if from == j then j
    else if IsRep(ms, similar, from) && similar(ms[from], ms[j]) then from
    else FirstClaim(ms, similar, j, from + 1)
  }

  /** The representative of the cluster message `j` joins. */
  function RepOf(ms: seq<Message>, similar: Similarity, j: nat): (r: nat)
    requires j < |ms|
    ensures r <= j
    decreases j, j + 1
  {
    FirstClaim(ms, similar, j, 0)
  }

  predicate IsRep(ms: seq<Message>, similar: Similarity, r: nat)
    requires r < |ms|
    decreases r, r + 2
  {
    RepOf(ms, similar, r) == r
  }

  lemma {:induction false} FirstClaimIsFirst(ms: seq<Message>, similar: Similarity, j: nat, from: nat)
    requires from <= j < |ms|
    ensures var r := FirstClaim(ms, similar, j, from);
      && (r < j ==> IsRep(ms, similar, r) && similar(ms[r], ms[j]))
      && (forall q :: from <= q < r ==> !(IsRep(ms, similar, q) && similar(ms[q], ms[j])))
    decreases j - from
  {
    if from < j && !(IsRep(ms, similar, from) && similar(ms[from], ms[j])) {
      FirstClaimIsFirst(ms, similar, j, from + 1);
    }
  }

  /** Every message belongs to the first representative similar to it, or starts its own cluster. */
  lemma RepresentativeIsFirstSimilar(ms: seq<Message>, similar: Similarity, j: nat)
    requires j < |ms|
    ensures var r := RepOf(ms, similar, j);
      && IsRep(ms, similar, r)
      && (r < j ==> similar(ms[r], ms[j]))
      && (forall q :: 0 <= q < r && IsRep(ms, similar, q) ==> !similar(ms[q], ms[j]))
  {
    FirstClaimIsFirst(ms, similar, j, 0);
  }

  function Members(ms: seq<Message>, similar: Similarity, r: nat, n: nat): seq<nat>
    requires n <= |ms|
  {
    if n == 0 then []
    else
      var rest := Members(ms, similar, r, n - 1);
      if RepOf(ms, similar, n - 1) == r then rest + [n - 1] else rest
  }

  /** The clusters whose representatives come before `n`, in order of representative. */
  function Clusters(ms: seq<Message>, similar: Similarity, n: nat): seq<seq<nat>>
    requires n <= |ms|
  {
    if n == 0 then []
    else
      var rest := Clusters(ms, similar, n - 1);
      if IsRep(ms, similar, n - 1) then rest + [Members(ms, similar, n - 1, |ms|)] else rest
  }

  lemma {:induction false} MembersStartAtRep(ms: seq<Message>, similar: Similarity, r: nat, n: nat)
    requires r < n <= |ms| && IsRep(ms, similar, r)
    ensures Members(ms, similar, r, r) == []
    ensures Members(ms, similar, r, r + 1) == [r]
    ensures |Members(ms, similar, r, n)| > 0 && Members(ms, similar, r, n)[0] == r
    ensures forall k :: 0 <= k < |Members(ms, similar, r, n)| ==>
      r <= Members(ms, similar, r, n)[k] < n && RepOf(ms, similar, Members(ms, similar, r, n)[k]) == r
    decreases n
  {
    NoMembersBefore(ms, similar, r, r);
    if n > r + 1 { MembersStartAtRep(ms, similar, r, n - 1); }
  }

  lemma {:induction false} NoMembersBefore(ms: seq<Message>, similar: Similarity, r: nat, n: nat)
    requires n <= r < |ms|
    ensures Members(ms, similar, r, n) == []
  {
    if n > 0 { NoMembersBefore(ms, similar, r, n - 1); }
  }

  lemma {:induction false} MembersComplete(ms: seq<Message>, similar: Similarity, r: nat, n: nat)
    requires n <= |ms|
    ensures forall j :: 0 <= j < n ==> (j in Members(ms, similar, r, n) <==> RepOf(ms, similar, j) == r)
    ensures forall j :: j in Members(ms, similar, r, n) ==> j < n
  {
    if n > 0 { MembersComplete(ms, similar, r, n - 1); }
  }

  /** Messages already put in a cluster when the outer loop stands at `i` and the inner one at `j`. */
  function Taken(ms: seq<Message>, similar: Similarity, i: nat, j: nat): set<nat>
  {
    set x | 0 <= x < |ms| && (RepOf(ms, similar, x) < i || (RepOf(ms, similar, x) == i && x < j))
  }

  method Signatures(ms: seq<Message>, h: Hashing) returns (sigs: seq<seq<nat>>)
    ensures |sigs| == |ms| && forall k :: 0 <= k < |ms| ==> sigs[k] == h.SignatureOf(ms[k])
  {
    sigs := [];
    for i := 0 to |ms|
      invariant |sigs| == i && forall k :: 0 <= k < i ==> sigs[k] == h.SignatureOf(ms[k])
    {
      var sig := ComputeMinHash(h.WordsOf(ms[i]), h.hash);
      sigs := sigs + [sig[..]];
    }
  }

  /** Whether the signatures at two places agree often enough. */
  method SlotsAgree(ghost ms: seq<Message>, ghost h: Hashing, sigs: seq<seq<nat>>, i: nat, j: nat, threshold: real)
    returns (agree: bool)
    requires i < |ms| == |sigs| && j < |ms|
    requires forall k :: 0 <= k < |ms| ==> sigs[k] == h.SignatureOf(ms[k])
    ensures agree <==> BySlots(h, threshold)(ms[i], ms[j])
  {
    var agreement := MinhashJaccard(sigs[i], sigs[j]);
    agree := agreement >= threshold;
  }

  /** Gather the later messages similar to representative `i` that no cluster has yet. */
  method GatherCluster(ms: seq<Message>, h: Hashing, sigs: seq<seq<nat>>, i: nat, threshold: real, taken: set<nat>)
    returns (members: seq<nat>, taken': set<nat>)
    requires i < |ms| == |sigs| && IsRep(ms, BySlots(h, threshold), i)
    requires forall k :: 0 <= k < |ms| ==> sigs[k] == h.SignatureOf(ms[k])
    requires taken == Taken(ms, BySlots(h, threshold), i, i)
    ensures members == Members(ms, BySlots(h, threshold), i, |ms|)
    ensures taken' == Taken(ms, BySlots(h, threshold), i, |ms|)
  {
    ghost var similar := BySlots(h, threshold);
    MembersStartAtRep(ms, similar, i, |ms|);
    members, taken' := [i], taken + {i};
    for j := i + 1 to |ms|
      invariant members == Members(ms, similar, i, j)
      invariant taken' == Taken(ms, similar, i, j)
    {
      RepresentativeIsFirstSimilar(ms, similar, j);
      var agree := SlotsAgree(ms, h, sigs, i, j, threshold);
      if j !in taken' && agree {
        members, taken' := members + [j], taken' + {j};
      }
    }
  }

  lemma OnlyRepsTake(ms: seq<Message>, similar: Similarity, i: nat)
    requires i < |ms|
    ensures IsRep(ms, similar, i) <==> i !in Taken(ms, similar, i, 0)
    ensures Taken(ms, similar, i, i) == Taken(ms, similar, i, 0)
    ensures Taken(ms, similar, i + 1, 0) == Taken(ms, similar, i, |ms|)
    ensures !IsRep(ms, similar, i) ==> Taken(ms, similar, i + 1, 0) == Taken(ms, similar, i, 0)
  {
    RepresentativeIsFirstSimilar(ms, similar, i);
    forall x | 0 <= x < |ms|
      ensures RepOf(ms, similar, x) == i ==> IsRep(ms, similar, i) && i <= x
    {
      RepresentativeIsFirstSimilar(ms, similar, x);
    }
  }

  /** Group near-duplicates: each unclaimed message gathers the later ones similar to it. */
  method MinHashDedup(ms: seq<Message>, h: Hashing, threshold: real) returns (clusters: seq<seq<nat>>)
    ensures clusters == Clusters(ms, BySlots(h, threshold), |ms|)
  {
    var sigs := Signatures(ms, h);
    ghost var similar := BySlots(h, threshold);
    clusters := [];
    var taken: set<nat> := {};
    for i := 0 to |ms|
      invariant clusters == Clusters(ms, similar, i)
      invariant taken == Taken(ms, similar, i, 0)
    {
      OnlyRepsTake(ms, similar, i);
      if i !in taken {
        var members;
        members, taken := GatherCluster(ms, h, sigs, i, threshold, taken);
        clusters := clusters + [members];
      }
    }
  }

  predicate AllPairsSimilar(ms: seq<Message>, similar: Similarity, cluster: seq<nat>)
    requires forall k :: 0 <= k < |cluster| ==> cluster[k] < |ms|
  {
    forall a, b :: 0 <= a < b < |cluster| ==> similar(ms[cluster[a]], ms[cluster[b]])
  }

  lemma {:induction false} ClusterShape(ms: seq<Message>, similar: Similarity, n: nat, c: nat)
    requires n <= |ms| && c < |Clusters(ms, similar, n)|
    ensures exists r ::
      0 <= r < n && IsRep(ms, similar, r) && Clusters(ms, similar, n)[c] == Members(ms, similar, r, |ms|)
    ensures forall k :: 0 <= k < |Clusters(ms, similar, n)[c]| ==> Clusters(ms, similar, n)[c][k] < |ms|
    ensures |Clusters(ms, similar, n)[c]| > 0
  {
    var rest := Clusters(ms, similar, n - 1);
    if c < |rest| {
      ClusterShape(ms, similar, n - 1, c);
    } else {
      MembersStartAtRep(ms, similar, n - 1, |ms|);
    }
  }

  /** What the clustering promises about every cluster it forms. */
  ghost predicate ClustersArePairwise(similar: Similarity) {
    forall ms: seq<Message>, c: nat :: c < |Clusters(ms, similar, |ms|)| ==> ClusterIsPairwise(ms, similar, c)
  }

  ghost predicate ClusterIsPairwise(ms: seq<Message>, similar: Similarity, c: nat)
    requires c < |Clusters(ms, similar, |ms|)|
  {
    ClusterShape(ms, similar, |ms|, c);
    AllPairsSimilar(ms, similar, Clusters(ms, similar, |ms|)[c])
  }

  /** Two messages similar to a third are similar to each other. */
  ghost predicate Euclidean(similar: Similarity) {
    forall a, b, c :: similar(a, b) && similar(a, c) ==> similar(b, c)
  }

  lemma PairwiseFromEuclidean(ms: seq<Message>, similar: Similarity, c: nat)
    requires Euclidean(similar) && c < |Clusters(ms, similar, |ms|)|
    ensures ClusterIsPairwise(ms, similar, c)
  {
    ClusterShape(ms, similar, |ms|, c);
    var cluster := Clusters(ms, similar, |ms|)[c];
    var r :| 0 <= r < |ms| && IsRep(ms, similar, r) && cluster == Members(ms, similar, r, |ms|);
    MembersStartAtRep(ms, similar, r, |ms|);
    MembersAscend(ms, similar, r, |ms|);
    forall a, b | 0 <= a < b < |cluster| ensures similar(ms[cluster[a]], ms[cluster[b]]) {
      RepresentativeIsFirstSimilar(ms, similar, cluster[a]);
      RepresentativeIsFirstSimilar(ms, similar, cluster[b]);
    }
  }

  lemma {:induction false} MembersAscend(ms: seq<Message>, similar: Similarity, r: nat, n: nat)
    requires n <= |ms|
    ensures forall a, b :: 0 <= a < b < |Members(ms, similar, r, n)| ==>
      Members(ms, similar, r, n)[a] < Members(ms, similar, r, n)[b]
    ensures forall a :: 0 <= a < |Members(ms, similar, r, n)| ==> Members(ms, similar, r, n)[a] < n
  {
    if n > 0 { MembersAscend(ms, similar, r, n - 1); }
  }

  /**
   * The documentation says all pairs of a cluster are similar. The code compares only
   * with the first member, so this holds of every input exactly when the similarity
   * carries over between messages similar to the same one.
   */
  lemma PairwiseClustersIff(similar: Similarity)
    ensures ClustersArePairwise(similar) <==> Euclidean(similar)
  {
    if Euclidean(similar) {
      forall ms: seq<Message>, c: nat | c < |Clusters(ms, similar, |ms|)| ensures ClusterIsPairwise(ms, similar, c) {
        PairwiseFromEuclidean(ms, similar, c);
      }
    }
    if ClustersArePairwise(similar) {
      forall a, b, c | similar(a, b) && similar(a, c) ensures similar(b, c) {
        var ms := [a, b, c];
        TripleCluster(similar, a, b, c);
        assert ClusterIsPairwise(ms, similar, 0);
        assert similar(ms[[0, 1, 2][1]], ms[[0, 1, 2][2]]);
      }
    }
  }

  lemma TripleCluster(similar: Similarity, a: Message, b: Message, c: Message)
    requires similar(a, b) && similar(a, c)
    ensures Clusters([a, b, c], similar, 3) == [[0, 1, 2]]
  {
    var ms := [a, b, c];
    assert RepOf(ms, similar, 0) == 0;
    assert IsRep(ms, similar, 0);
    assert RepOf(ms, similar, 1) == 0 && RepOf(ms, similar, 2) == 0;
    assert Members(ms, similar, 0, 1) == [0];
    assert Members(ms, similar, 0, 2) == [0, 1];
    assert Members(ms, similar, 0, 3) == [0, 1, 2];
    assert Clusters(ms, similar, 1) == [[0, 1, 2]];
    assert Clusters(ms, similar, 2) == [[0, 1, 2]];
  }

  // ---- Slot agreement --------------------------------------------------------------

  /** The three texts whose signatures fall apart, and a family under which they do. */
  function Example(text: string): Message { Message(text, User, [Text(text)], 0) }

  function Overlapping(m: nat): HashFamily {
    (w: string, k: nat) =>
      if w == "aa" then 0
      else if w == "bb" then (if k < m then 0 else 1)
      else (if k + m < NUM_HASHES then 2 else 0)
  }

  function AsIs(m: nat): Hashing { Hashing((s: string) => s, Overlapping(m)) }

  lemma ExampleWord(m: nat, text: string)
    requires |text| == 2 && IsWordChar(text[0]) && IsWordChar(text[1])
    ensures AsIs(m).WordsOf(Example(text)) == [text]
  {
    assert Texts([Text(text)]) == [text];
    assert "" + [text[0]] == [text[0]] && [text[0]] + [text[1]] == text;
    assert Split(text, "") == Split(text[1..], [text[0]]) == Split(text[2..], [text[0]] + [text[1]]);
  }

  lemma ExampleSlots(m: nat, text: string, k: nat)
    requires |text| == 2 && IsWordChar(text[0]) && IsWordChar(text[1]) && k < NUM_HASHES
    ensures AsIs(m).SignatureOf(Example(text))[k] == Overlapping(m)(text, k)
  {
    ExampleWord(m, text);
    assert [text][..0] == [];
    assert Slot([text][..0], Overlapping(m), k) == UNSET;
  }

  /** The first text agrees with both others in `m` slots, and they with each other in far fewer. */
  lemma ExampleAgreements(m: nat)
    requires 1 <= m < NUM_HASHES
    ensures var h := AsIs(m);
      var a, b, c := h.SignatureOf(Example("aa")), h.SignatureOf(Example("bb")), h.SignatureOf(Example("cc"));
      && Matches(a, b, NUM_HASHES) == m
      && Matches(a, c, NUM_HASHES) == m
      && Matches(b, c, NUM_HASHES) == Max(0, 2 * m - NUM_HASHES)
  {
    var h := AsIs(m);
    var a, b, c := h.SignatureOf(Example("aa")), h.SignatureOf(Example("bb")), h.SignatureOf(Example("cc"));
    forall k | 0 <= k < NUM_HASHES
      ensures (a[k] == b[k] <==> 0 <= k < m) && (a[k] == c[k] <==> NUM_HASHES - m <= k < NUM_HASHES)
      ensures b[k] == c[k] <==> NUM_HASHES - m <= k < m
    {
      ExampleSlots(m, "aa", k);
      ExampleSlots(m, "bb", k);
      ExampleSlots(m, "cc", k);
    }
    MatchesInterval(a, b, 0, m, NUM_HASHES);
    MatchesInterval(a, c, NUM_HASHES - m, NUM_HASHES, NUM_HASHES);
    MatchesInterval(b, c, NUM_HASHES - m, m, NUM_HASHES);
  }

  lemma FullAgreementIsEuclidean(h: Hashing, threshold: real)
    requires threshold > 63.0 / 64.0
    ensures Euclidean(BySlots(h, threshold))
  {
    var similar := BySlots(h, threshold);
    forall a, b, c | similar(a, b) && similar(a, c) ensures similar(b, c) {
      AllMatchIff(h.SignatureOf(a), h.SignatureOf(b), NUM_HASHES);
      AllMatchIff(h.SignatureOf(a), h.SignatureOf(c), NUM_HASHES);
      AllMatchIff(h.SignatureOf(b), h.SignatureOf(c), NUM_HASHES);
    }
  }

  lemma PartialAgreementIsNot(threshold: real)
    requires 0.0 < threshold <= 63.0 / 64.0
    ensures exists h :: !Euclidean(BySlots(h, threshold))
  {
    var m := -(-64.0 * threshold).Floor;
    assert m as real >= 64.0 * threshold > (m - 1) as real;
    var h, a, b, c := AsIs(m), Example("aa"), Example("bb"), Example("cc");
    ExampleAgreements(m);
    var similar := BySlots(h, threshold);
    assert similar(a, b) && similar(a, c) && !similar(b, c);
    assert !Euclidean(BySlots(h, threshold));
  }

  /**
   * The clusters are what the documentation says for every text and every hash family exactly
   * when no agreement or a full one is asked for.
   */
  lemma DocumentedClustersIff(threshold: real)
    ensures (forall h :: ClustersArePairwise(BySlots(h, threshold))) <==> threshold <= 0.0 || threshold > 63.0 / 64.0
  {
    forall h: Hashing ensures ClustersArePairwise(BySlots(h, threshold)) <==> Euclidean(BySlots(h, threshold)) {
      PairwiseClustersIff(BySlots(h, threshold));
    }
    if threshold > 63.0 / 64.0 {
      forall h: Hashing ensures Euclidean(BySlots(h, threshold)) { FullAgreementIsEuclidean(h, threshold); }
    } else if threshold > 0.0 {
      PartialAgreementIsNot(threshold);
    }
  }

  // ---- A message that joins the words of two others --------------------------------------

  lemma TripleClusterIff(similar: Similarity, a: Message, b: Message, c: Message)
    ensures Clusters([a, b, c], similar, 3) == [[0, 1, 2]] <==> similar(a, b) && similar(a, c)
  {
    if similar(a, b) && similar(a, c) {
      TripleCluster(similar, a, b, c);
    } else {
      var ms := [a, b, c];
      MembersComplete(ms, similar, 0, 3);
      assert RepOf(ms, similar, 0) == 0;
      assert !similar(a, b) ==> RepOf(ms, similar, 1) == 1;
      assert !similar(a, c) ==> RepOf(ms, similar, 2) != 0;
      FirstClusterIsOfFirst(ms, similar, 3);
    }
  }

  lemma {:induction false} FirstClusterIsOfFirst(ms: seq<Message>, similar: Similarity, n: nat)
    requires 0 < n <= |ms|
    ensures Clusters(ms, similar, n) != [] && Clusters(ms, similar, n)[0] == Members(ms, similar, 0, |ms|)
  {
    if n > 1 {
      FirstClusterIsOfFirst(ms, similar, n - 1);
    } else {
      assert IsRep(ms, similar, 0) && Clusters(ms, similar, 0) == [];
    }
  }

  function SlotsShared(h: Hashing, a: Message, b: Message): nat {
    Matches(h.SignatureOf(a), h.SignatureOf(b), NUM_HASHES)
  }

  /** The words of the first message are those of the other two. */
  predicate JoinsWords(h: Hashing, a: Message, b: Message, c: Message) {
    ToSet(h.WordsOf(a)) == ToSet(h.WordsOf(b)) + ToSet(h.WordsOf(c))
  }

  ghost predicate OneCluster(h: Hashing, threshold: real, a: Message, b: Message, c: Message) {
    Clusters([a, b, c], BySlots(h, threshold), 3) == [[0, 1, 2]]
  }

  lemma OneClusterIff(h: Hashing, threshold: real, a: Message, b: Message, c: Message)
    ensures OneCluster(h, threshold, a, b, c) <==>
      BySlots(h, threshold)(a, b) && BySlots(h, threshold)(a, c)
    ensures OneCluster(h, threshold, a, b, c) ==>
      (ClusterIsPairwise([a, b, c], BySlots(h, threshold), 0) <==> BySlots(h, threshold)(b, c))
  {
    var ms, similar := [a, b, c], BySlots(h, threshold);
    TripleClusterIff(similar, a, b, c);
    if OneCluster(h, threshold, a, b, c) {
      var cluster := Clusters(ms, similar, 3)[0];
      assert cluster == [0, 1, 2];
      if AllPairsSimilar(ms, similar, cluster) { assert similar(ms[cluster[1]], ms[cluster[2]]); }
    }
  }

  /**
   * For every hash family: a message that joins the words of two others is in one cluster with
   * them exactly when it shares 39 slots with each; they then share at least 14 slots with each
   * other, and the cluster is not what is documented exactly when they share fewer than 39.
   */
  lemma JoinedClusterIff(h: Hashing, a: Message, b: Message, c: Message)
    requires JoinsWords(h, a, b, c)
    ensures SlotsShared(h, a, b) + SlotsShared(h, a, c) == NUM_HASHES + SlotsShared(h, b, c)
    ensures OneCluster(h, DEDUP_THRESHOLD, a, b, c) <==> SlotsShared(h, a, b) >= 39 && SlotsShared(h, a, c) >= 39
    ensures OneCluster(h, DEDUP_THRESHOLD, a, b, c) ==>
      && SlotsShared(h, b, c) >= 14
      && (ClusterIsPairwise([a, b, c], BySlots(h, DEDUP_THRESHOLD), 0) <==> SlotsShared(h, b, c) >= 39)
  {
    UnionAgreements(h.WordsOf(a), h.WordsOf(b), h.WordsOf(c), h.hash);
    OneClusterIff(h, DEDUP_THRESHOLD, a, b, c);
  }

  // ---- Under the program's own hash family -------------------------------------------------

  lemma FirstWord(word: string, rest: string)
    requires |word| == 2 && IsWordChar(word[0]) && IsWordChar(word[1])
    ensures Words(word) == [word]
    ensures Words(word + " " + rest) == [word] + Words(rest)
  {
    var s := word + " " + rest;
    assert "" + [word[0]] == [word[0]] && [word[0]] + [word[1]] == word;
    assert Split(word, "") == Split(word[1..], [word[0]]) == Split(word[2..], word);
    assert Split(s, "") == Split(s[1..], [word[0]]) == Split(s[2..], word);
    assert s[2..][1..] == rest;
  }

  lemma ExampleTexts()
    ensures Words("be do no") == AllThree() && Words("be do") == ["be", "do"] && Words("be no") == ["be", "no"]
  {
    FirstWord("be", "do no");
    FirstWord("be", "do");
    FirstWord("be", "no");
    FirstWord("do", "no");
    FirstWord("no", "");
    assert "be" + " " + "do no" == "be do no" && "be" + " " + "do" == "be do" && "be" + " " + "no" == "be no";
    assert "do" + " " + "no" == "do no";
  }

  lemma WordsOfExample(h: Hashing, text: string)
    requires h.lower(text) == text
    ensures h.WordsOf(Example(text)) == Words(text)
  {
    assert Texts([Text(text)]) == [text];
  }

  /** The program's hash family, with any way to lower-case that leaves the three texts alone. */
  ghost predicate ProgramHashing(h: Hashing) {
    && h.hash == SourceFamily()
    && h.lower("be do no") == "be do no" && h.lower("be do") == "be do" && h.lower("be no") == "be no"
  }

  lemma ExampleSlotsShared(h: Hashing)
    requires ProgramHashing(h)
    ensures var a, b, c := Example("be do no"), Example("be do"), Example("be no");
      SlotsShared(h, a, b) == 39 && SlotsShared(h, a, c) == 39 && SlotsShared(h, b, c) == 14
  {
    ExampleTexts();
    WordsOfExample(h, "be do no");
    WordsOfExample(h, "be do");
    WordsOfExample(h, "be no");
    SourceAgreements();
    UnionAgreements(AllThree(), ["be", "do"], ["be", "no"], SourceFamily());
  }

  /**
   * Under the program's hash family, at the threshold in use and any other between 14 and 39
   * slots, the texts "be do no", "be do" and "be no" form one cluster whose last two share 14.
   */
  lemma SourceClusterIsNotPairwise(h: Hashing, threshold: real)
    requires ProgramHashing(h) && 14.0 / 64.0 < threshold <= 39.0 / 64.0
    ensures 14.0 / 64.0 < DEDUP_THRESHOLD <= 39.0 / 64.0
    ensures var a, b, c := Example("be do no"), Example("be do"), Example("be no");
      && OneCluster(h, threshold, a, b, c)
      && Agreement(h.SignatureOf(b), h.SignatureOf(c)) == 14.0 / 64.0
      && !ClusterIsPairwise([a, b, c], BySlots(h, threshold), 0)
  {
    ExampleSlotsShared(h);
    OneClusterIff(h, threshold, Example("be do no"), Example("be do"), Example("be no"));
  }

  /** Messages that every message treats alike, and that are similar, share a cluster. */
  lemma TwinsShareCluster(ms: seq<Message>, similar: Similarity, i: nat, j: nat)
    requires i < j < |ms| && similar(ms[i], ms[j])
    requires forall x :: similar(x, ms[i]) <==> similar(x, ms[j])
    ensures RepOf(ms, similar, i) == RepOf(ms, similar, j)
  {
    RepresentativeIsFirstSimilar(ms, similar, i);
    RepresentativeIsFirstSimilar(ms, similar, j);
    var r, q := RepOf(ms, similar, i), RepOf(ms, similar, j);
    assert q < i ==> similar(ms[q], ms[i]);
    assert r < i ==> similar(ms[r], ms[j]);
  }

  /** Texts without two neighbouring letters or digits all fall in one cluster, whatever they say. */
  lemma WordlessShareCluster(ms: seq<Message>, h: Hashing, threshold: real, i: nat, j: nat)
    requires i < j < |ms| && threshold <= 1.0
    requires !TwoWordCharsMeet(h.lower(ExtractText(ms[i].content)))
    requires !TwoWordCharsMeet(h.lower(ExtractText(ms[j].content)))
    ensures RepOf(ms, BySlots(h, threshold), i) == RepOf(ms, BySlots(h, threshold), j)
  {
    WordlessIff(h.lower(ExtractText(ms[i].content)));
    WordlessIff(h.lower(ExtractText(ms[j].content)));
    assert h.SignatureOf(ms[i]) == h.SignatureOf(ms[j]);
    AllMatchIff(h.SignatureOf(ms[i]), h.SignatureOf(ms[j]), NUM_HASHES);
    TwinsShareCluster(ms, BySlots(h, threshold), i, j);
  }

  /** Under the program's hash family nothing else joins them: a word and none share no slot. */
  lemma WordlessSimilarIff(h: Hashing, threshold: real, a: Message, b: Message)
    requires h.hash == SourceFamily() && 0.0 < threshold <= 1.0 && h.WordsOf(a) == []
    ensures BySlots(h, threshold)(a, b) <==> h.WordsOf(b) == []
    ensures BySlots(h, threshold)(b, a) <==> h.WordsOf(b) == []
  {
    if h.WordsOf(b) == [] {
      AllMatchIff(h.SignatureOf(a), h.SignatureOf(b), NUM_HASHES);
    } else {
      NoneMatch(h.WordsOf(b), NUM_HASHES);
    }
  }

  lemma WordlessClusterIff(ms: seq<Message>, h: Hashing, threshold: real, i: nat, j: nat)
    requires i < |ms| && j < |ms| && h.hash == SourceFamily() && 0.0 < threshold <= 1.0
    requires h.WordsOf(ms[i]) == []
    ensures RepOf(ms, BySlots(h, threshold), i) == RepOf(ms, BySlots(h, threshold), j) <==> h.WordsOf(ms[j]) == []
  {
    var similar := BySlots(h, threshold);
    var r := RepOf(ms, similar, i);
    RepresentativeIsFirstSimilar(ms, similar, i);
    RepresentativeIsFirstSimilar(ms, similar, j);
    WordlessSimilarIff(h, threshold, ms[i], ms[r]);
    assert h.WordsOf(ms[r]) == [];
    WordlessSimilarIff(h, threshold, ms[r], ms[j]);
    if h.WordsOf(ms[j]) == [] {
      WordlessIff(h.lower(ExtractText(ms[i].content)));
      WordlessIff(h.lower(ExtractText(ms[j].content)));
      if i < j { WordlessShareCluster(ms, h, threshold, i, j); }
      if j < i { WordlessShareCluster(ms, h, threshold, j, i); }
    }
  }

  /** So at most one of them survives deduplication. */
  lemma OneWordlessSurvivor(ms: seq<Message>, h: Hashing, i: nat, j: nat)
    requires i < j < |ms|
    requires !TwoWordCharsMeet(h.lower(ExtractText(ms[i].content)))
    requires !TwoWordCharsMeet(h.lower(ExtractText(ms[j].content)))
    ensures var similar := BySlots(h, DEDUP_THRESHOLD);
      !(IsSurvivor(ms, similar, |ms|, i) && IsSurvivor(ms, similar, |ms|, j))
  {
    WordlessShareCluster(ms, h, DEDUP_THRESHOLD, i, j);
  }

  // ---- One survivor per cluster -----------------------------------------------------

  predicate Within(indices: seq<int>, n: nat) {
    forall k :: 0 <= k < |indices| ==> 0 <= indices[k] < n
  }

  function TextLength(m: Message): nat { |ExtractText(m.content)| }

  /** The position of the first of the largest numbers. */
  function FirstMax(s: seq<nat>): (k: nat)
    requires s != []
    ensures k < |s|
  {
    var last := |s| - 1;
    if last == 0 then 0
    else
      var k := FirstMax(s[..last]);
      if s[last] > s[k] then last else k
  }

  lemma {:induction false} FirstMaxIsFirstAndLargest(s: seq<nat>)
    requires s != []
    ensures forall i :: 0 <= i < |s| ==> s[i] <= s[FirstMax(s)]
    ensures forall i :: 0 <= i < FirstMax(s) ==> s[i] < s[FirstMax(s)]
  {
    if |s| > 1 { FirstMaxIsFirstAndLargest(s[..|s| - 1]); }
  }

  function Lengths(ms: seq<Message>, cluster: seq<int>): (r: seq<nat>)
    requires Within(cluster, |ms|)
    ensures |r| == |cluster|
    ensures forall k :: 0 <= k < |cluster| ==> r[k] == TextLength(ms[cluster[k]])
  {
    seq(|cluster|, k requires 0 <= k < |cluster| => TextLength(ms[cluster[k]]))
  }

  /** The first of the cluster's members with the longest text. */
  function Longest(ms: seq<Message>, cluster: seq<int>): (b: int)
    requires cluster != [] && Within(cluster, |ms|)
    ensures b in cluster && 0 <= b < |ms|
  {
    cluster[FirstMax(Lengths(ms, cluster))]
  }

  /** The survivors of the clusters whose representatives come before `n`. */
  function Survivors(ms: seq<Message>, similar: Similarity, n: nat): seq<int>
    requires n <= |ms|
  {
    if n == 0 then []
    else
      var rest := Survivors(ms, similar, n - 1);
      if IsRep(ms, similar, n - 1) then rest + [SurvivorOf(ms, similar, n - 1)] else rest
  }

  /** The survivor of the cluster started by representative `r`. */
  function SurvivorOf(ms: seq<Message>, similar: Similarity, r: nat): (b: int)
    requires r < |ms| && IsRep(ms, similar, r)
    ensures 0 <= b < |ms| && RepOf(ms, similar, b) == r
  {
    MembersStartAtRep(ms, similar, r, |ms|);
    Longest(ms, Members(ms, similar, r, |ms|))
  }

  /** Every message has a survivor in its own cluster with at least as much text. */
  lemma EveryMessageHasSurvivor(ms: seq<Message>, similar: Similarity, j: nat)
    requires j < |ms|
    ensures IsRep(ms, similar, RepOf(ms, similar, j))
    ensures var b := SurvivorOf(ms, similar, RepOf(ms, similar, j));
      && b in Survivors(ms, similar, |ms|)
      && RepOf(ms, similar, b) == RepOf(ms, similar, j)
      && TextLength(ms[b]) >= TextLength(ms[j])
      && (TextLength(ms[b]) == TextLength(ms[j]) ==> b <= j)
  {
    RepresentativeIsFirstSimilar(ms, similar, j);
    var r := RepOf(ms, similar, j);
    SurvivorsComplete(ms, similar, |ms|);
    MembersStartAtRep(ms, similar, r, |ms|);
    MembersComplete(ms, similar, r, |ms|);
    MembersAscend(ms, similar, r, |ms|);
    var cluster := Members(ms, similar, r, |ms|);
    FirstMaxIsFirstAndLargest(Lengths(ms, cluster));
    var at :| 0 <= at < |cluster| && cluster[at] == j;
    assert Lengths(ms, cluster)[at] == TextLength(ms[j]);
  }

  /** Survivors are all different, and each is the survivor of its own cluster. */
  lemma SurvivorsComplete(ms: seq<Message>, similar: Similarity, n: nat)
    requires n <= |ms|
    ensures Distinct(Survivors(ms, similar, n))
    ensures Within(Survivors(ms, similar, n), |ms|)
    ensures forall b :: b in Survivors(ms, similar, n) ==> IsSurvivor(ms, similar, n, b)
    ensures forall r :: 0 <= r < n && IsRep(ms, similar, r) ==> SurvivorOf(ms, similar, r) in Survivors(ms, similar, n)
  {
    SurvivorsAscendByRep(ms, similar, n);
    SurvivorsOfAllReps(ms, similar, n);
    var s := Survivors(ms, similar, n);
    forall i, j | 0 <= i < j < |s| ensures s[i] != s[j] {
      assert RepOf(ms, similar, s[i]) < RepOf(ms, similar, s[j]);
    }
  }

  predicate RepsAscend(ms: seq<Message>, similar: Similarity, s: seq<int>)
    requires Within(s, |ms|)
  {
    forall i, j :: 0 <= i < j < |s| ==> RepOf(ms, similar, s[i]) < RepOf(ms, similar, s[j])
  }

  lemma {:induction false} SurvivorsAscendByRep(ms: seq<Message>, similar: Similarity, n: nat)
    requires n <= |ms|
    ensures forall i :: 0 <= i < |Survivors(ms, similar, n)| ==>
      IsSurvivor(ms, similar, n, Survivors(ms, similar, n)[i])
    ensures Within(Survivors(ms, similar, n), |ms|)
    ensures RepsAscend(ms, similar, Survivors(ms, similar, n))
  {
    if n > 0 {
      SurvivorsAscendByRep(ms, similar, n - 1);
      var rest := Survivors(ms, similar, n - 1);
      forall i | 0 <= i < |rest| ensures IsSurvivor(ms, similar, n, rest[i]) && RepOf(ms, similar, rest[i]) < n - 1 {
        assert IsSurvivor(ms, similar, n - 1, rest[i]);
      }
    }
  }

  lemma {:induction false} SurvivorsOfAllReps(ms: seq<Message>, similar: Similarity, n: nat)
    requires n <= |ms|
    ensures forall r :: 0 <= r < n && IsRep(ms, similar, r) ==> SurvivorOf(ms, similar, r) in Survivors(ms, similar, n)
  {
    if n > 0 { SurvivorsOfAllReps(ms, similar, n - 1); }
  }

  predicate IsSurvivor(ms: seq<Message>, similar: Similarity, n: nat, b: int)
    requires n <= |ms|
  {
    && 0 <= b < |ms|
    && RepOf(ms, similar, b) < n
    && IsRep(ms, similar, RepOf(ms, similar, b))
    && SurvivorOf(ms, similar, RepOf(ms, similar, b)) == b
  }

  /** The elements at the given indices. */
  function At<T>(s: seq<T>, indices: seq<int>): (r: seq<T>)
    requires Within(indices, |s|)
    ensures |r| == |indices|
    ensures forall k :: 0 <= k < |indices| ==> r[k] == s[indices[k]]
  {
    seq(|indices|, k requires 0 <= k < |indices| => s[indices[k]])
  }

  function Earlier(): (Message, Message) -> bool { (a: Message, b: Message) => a.timestamp <= b.timestamp }

  function UpTo(): (int, int) -> bool { (i: int, j: int) => i <= j }

  /** One survivor per cluster, sorted by time. */
  function Deduplicated(ms: seq<Message>, similar: Similarity): seq<Message> {
    SurvivorsComplete(ms, similar, |ms|);
    Sort(At(ms, Survivors(ms, similar, |ms|)), Earlier())
  }

  method DeduplicateMessages(ms: seq<Message>, h: Hashing) returns (result: seq<Message>)
    ensures result == Deduplicated(ms, BySlots(h, DEDUP_THRESHOLD))
  {
    ghost var similar := BySlots(h, DEDUP_THRESHOLD);
    var clusters := MinHashDedup(ms, h, DEDUP_THRESHOLD);
    ClusterSurvivors(ms, similar, |ms|);
    SurvivorsComplete(ms, similar, |ms|);
    ghost var survivors := Survivors(ms, similar, |ms|);
    result := [];
    for c := 0 to |clusters|
      invariant result == At(ms, survivors[..c])
    {
      ClusterShape(ms, similar, |ms|, c);
      var best := KeepLongest(ms, clusters[c]);
      assert survivors[..c + 1] == survivors[..c] + [survivors[c]];
      result := result + [ms[best]];
    }
    assert survivors[..|clusters|] == survivors;
    result := Sort(result, Earlier());
  }

  method KeepLongest(ms: seq<Message>, cluster: seq<int>) returns (best: int)
    requires cluster != [] && Within(cluster, |ms|)
    ensures best == Longest(ms, cluster) && 0 <= best < |ms|
  {
    ghost var lengths := Lengths(ms, cluster);
    best := cluster[0];
    var bestLength := TextLength(ms[best]);
    for i := 1 to |cluster|
      invariant best == cluster[FirstMax(lengths[..i])] && bestLength == lengths[FirstMax(lengths[..i])]
    {
      FirstMaxNext(lengths, i);
      var length := TextLength(ms[cluster[i]]);
      if length > bestLength { best, bestLength := cluster[i], length; }
    }
    assert lengths[..|cluster|] == lengths;
  }

  lemma FirstMaxNext(s: seq<nat>, i: nat)
    requires 0 < i < |s|
    ensures FirstMax(s[..i + 1]) == if s[i] > s[FirstMax(s[..i])] then i else FirstMax(s[..i])
  {
    assert s[..i + 1][..i] == s[..i];
  }

  /** The two sequences pair each cluster with its longest message. */
  predicate AllLongest(ms: seq<Message>, clusters: seq<seq<nat>>, survivors: seq<int>) {
    |clusters| == |survivors| && forall c :: 0 <= c < |clusters| ==> IsLongestOf(ms, clusters[c], survivors[c])
  }

  lemma {:induction false} ClusterSurvivors(ms: seq<Message>, similar: Similarity, n: nat)
    requires n <= |ms|
    ensures AllLongest(ms, Clusters(ms, similar, n), Survivors(ms, similar, n))
  {
    if n > 0 {
      ClusterSurvivors(ms, similar, n - 1);
      if IsRep(ms, similar, n - 1) {
        MembersStartAtRep(ms, similar, n - 1, |ms|);
        OneMoreLongest(ms, Clusters(ms, similar, n - 1), Survivors(ms, similar, n - 1),
                       Members(ms, similar, n - 1, |ms|), SurvivorOf(ms, similar, n - 1));
      }
    }
  }

  lemma OneMoreLongest(ms: seq<Message>, clusters: seq<seq<nat>>, survivors: seq<int>, cluster: seq<nat>, b: int)
    requires AllLongest(ms, clusters, survivors) && IsLongestOf(ms, cluster, b)
    ensures AllLongest(ms, clusters + [cluster], survivors + [b])
  {
  }

  predicate IsLongestOf(ms: seq<Message>, cluster: seq<int>, b: int) {
    && cluster != []
    && Within(cluster, |ms|)
    && Longest(ms, cluster) == b
  }

  // ---- Order after deduplication ----------------------------------------------------

  predicate Ascending(s: seq<int>) {
    forall i, j :: 0 <= i < j < |s| ==> s[i] < s[j]
  }

  predicate TimesIncrease(ms: seq<Message>) {
    forall i, j :: 0 <= i < j < |ms| ==> ms[i].timestamp < ms[j].timestamp
  }

  predicate IdsDiffer(ms: seq<Message>) {
    forall i, j :: 0 <= i < j < |ms| ==> ms[i].id != ms[j].id
  }

  lemma {:induction false} InsertAt(ms: seq<Message>, x: int, s: seq<int>)
    requires TimesIncrease(ms) && 0 <= x < |ms| && Within(s, |ms|)
    ensures Within(Insert(x, s, UpTo()), |ms|)
    ensures Insert(ms[x], At(ms, s), Earlier()) == At(ms, Insert(x, s, UpTo()))
  {
    if s != [] {
      assert At(ms, s)[1..] == At(ms, s[1..]);
      assert x <= s[0] <==> ms[x].timestamp <= ms[s[0]].timestamp;
      InsertAt(ms, x, s[1..]);
    }
  }

  /** When times increase, sorting messages by time is sorting their indices. */
  lemma {:induction false} SortAt(ms: seq<Message>, s: seq<int>)
    requires TimesIncrease(ms) && Within(s, |ms|)
    ensures Within(Sort(s, UpTo()), |ms|)
    ensures Sort(At(ms, s), Earlier()) == At(ms, Sort(s, UpTo()))
  {
    if s != [] {
      assert At(ms, s)[1..] == At(ms, s[1..]);
      SortAt(ms, s[1..]);
      InsertAt(ms, s[0], Sort(s[1..], UpTo()));
    }
  }

  lemma SortAscends(s: seq<int>)
    requires Distinct(s)
    ensures Ascending(Sort(s, UpTo()))
    ensures forall x :: x in Sort(s, UpTo()) <==> x in s
  {
    SortSorts(s, UpTo());
    SortElements(s, UpTo());
  }

  /** The survivors' indices in their original order. */
  function SurvivorsInOrder(ms: seq<Message>, similar: Similarity): seq<int> {
    Sort(Survivors(ms, similar, |ms|), UpTo())
  }

  /** With increasing times, deduplication keeps the original order: exactly one message per cluster. */
  lemma DedupIsSubsequence(ms: seq<Message>, similar: Similarity)
    requires TimesIncrease(ms)
    ensures var kept := SurvivorsInOrder(ms, similar);
      && Ascending(kept)
      && Within(kept, |ms|)
      && Deduplicated(ms, similar) == At(ms, kept)
      && (forall b :: b in kept <==> IsSurvivor(ms, similar, |ms|, b))
  {
    var all := Survivors(ms, similar, |ms|);
    SurvivorsComplete(ms, similar, |ms|);
    SortAscends(all);
    SortAt(ms, all);
    forall b ensures b in SurvivorsInOrder(ms, similar) <==> IsSurvivor(ms, similar, |ms|, b) {
      if 0 <= b < |ms| { RepresentativeIsFirstSimilar(ms, similar, b); }
    }
  }
}
