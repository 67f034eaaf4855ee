/** Words of a text, their 64-slot signature, and how often two signatures agree. */
module MinHash {
  import opened Collections

  // ---- Words ------------------------------------------------------------------------

  predicate IsWordChar(c: char) { 'a' <= c <= 'z' || '0' <= c <= '9' }

  function LongEnough(run: string): seq<string> { if |run| >= 2 then [run] else [] }

  /** The words of `s` when the characters `run` of the current word were already read. */
  function Split(s: string, run: string): seq<string> {
    if s == "" then LongEnough(run)
    else if IsWordChar(s[0]) then Split(s[1..], run + [s[0]])
    else LongEnough(run) + Split(s[1..], "")
  }

  /** The runs of two or more letters and digits of a lower-cased text. */
  function Words(s: string): seq<string> { Split(s, "") }

  predicate WordCharsMeetAt(s: string, i: int) {
    0 <= i < |s| - 1 && IsWordChar(s[i]) && IsWordChar(s[i + 1])
  }

  ghost predicate TwoWordCharsMeet(s: string) { exists i :: WordCharsMeetAt(s, i) }

  lemma {:induction false} LongRunGivesWord(s: string, run: string)
    requires |run| >= 2
    ensures Split(s, run) != []
  {
    if s != "" && IsWordChar(s[0]) { LongRunGivesWord(s[1..], run + [s[0]]); }
  }

  lemma {:induction false} SplitEmptyIff(s: string, run: string)
    requires |run| <= 1 && forall i :: 0 <= i < |run| ==> IsWordChar(run[i])
    ensures Split(s, run) == [] <==> !TwoWordCharsMeet(run + s)
    decreases |s|
  {
    if s != "" {
      if !IsWordChar(s[0]) {
        SplitEmptyIff(s[1..], "");
        assert "" + s[1..] == s[1..];
        StrangerParts(run, s);
      } else if run == "" {
        assert run + s == s && [s[0]] + s[1..] == s && run + [s[0]] == [s[0]];
        SplitEmptyIff(s[1..], [s[0]]);
      } else {
        LongRunGivesWord(s[1..], run + [s[0]]);
        assert WordCharsMeetAt(run + s, 0);
      }
    }
  }

  /** Two word characters cannot meet across a character that is not one. */
  lemma StrangerParts(run: string, s: string)
    requires |run| <= 1 && s != "" && !IsWordChar(s[0])
    ensures TwoWordCharsMeet(run + s) <==> TwoWordCharsMeet(s[1..])
  {
    var t, skipped := run + s, |run| + 1;
    assert t[skipped..] == s[1..];
    forall i ensures WordCharsMeetAt(t, i) <==> WordCharsMeetAt(s[1..], i - skipped) {
      if skipped <= i < |t| { assert t[i] == s[1..][i - skipped]; }
      if skipped <= i + 1 < |t| { assert t[i + 1] == s[1..][i + 1 - skipped]; }
    }
    if k :| WordCharsMeetAt(s[1..], k) { assert WordCharsMeetAt(t, k + skipped); }
  }

  /** A text has no word exactly when no two of its letters and digits are neighbours. */
  lemma WordlessIff(s: string)
    ensures Words(s) == [] <==> !TwoWordCharsMeet(s)
  {
    SplitEmptyIff(s, "");
    assert "" + s == s;
  }

  /** Letters a to z and digits, by their code points. */
  lemma WordCharIs(c: char)
    ensures IsWordChar(c) <==> 97 <= c as int <= 122 || 48 <= c as int <= 57
  {
  }

  /** From `i` up to `j` stand two or more letters or digits, with none just before or after. */
  predicate RunAt(s: string, i: int, j: int) {
    && 0 <= i && i + 2 <= j <= |s|
    && (forall k :: i <= k < j ==> IsWordChar(s[k]))
    && (i > 0 ==> !IsWordChar(s[i - 1])) && (j < |s| ==> !IsWordChar(s[j]))
  }

  ghost predicate IsRun(w: string, s: string) { exists i, j :: RunAt(s, i, j) && s[i..j] == w }

  lemma WholeRun(w: string, run: string)
    requires forall k :: 0 <= k < |run| ==> IsWordChar(run[k])
    ensures IsRun(w, run) <==> |run| >= 2 && w == run
  {
    assert run[0..|run|] == run;
    if |run| >= 2 { assert RunAt(run, 0, |run|); }
    if i, j :| RunAt(run, i, j) && run[i..j] == w {
      assert i == 0 && j == |run|;
    }
  }

  /** A run at or before the first character that is in no word is the whole of what stands before it. */
  lemma FirstRun(run: string, s: string, i: int, j: int)
    requires forall k :: 0 <= k < |run| ==> IsWordChar(run[k])
    requires s != "" && !IsWordChar(s[0]) && RunAt(run + s, i, j) && i <= |run|
    ensures i == 0 && j == |run| && (run + s)[i..j] == run
  {
    var t := run + s;
    assert !IsWordChar(t[|run|]);
    forall k | 0 <= k < |run| ensures IsWordChar(t[k]) { assert t[k] == run[k]; }
  }

  lemma RunFromParts(w: string, run: string, s: string)
    requires forall k :: 0 <= k < |run| ==> IsWordChar(run[k])
    requires s != "" && !IsWordChar(s[0])
    ensures (|run| >= 2 && w == run) || IsRun(w, s[1..]) ==> IsRun(w, run + s)
  {
    var t, skipped := run + s, |run| + 1;
    assert t[skipped..] == s[1..] && t[0..|run|] == run && !IsWordChar(t[|run|]);
    if |run| >= 2 && w == run {
      assert RunAt(t, 0, |run|);
    } else if i, j :| RunAt(s[1..], i, j) && s[1..][i..j] == w {
      RunMoves(t, s[1..], skipped, i, j);
    }
  }

  /** A run ends before the first character that is not in a word, or begins after it. */
  lemma RunsPart(w: string, run: string, s: string)
    requires forall k :: 0 <= k < |run| ==> IsWordChar(run[k])
    requires s != "" && !IsWordChar(s[0])
    ensures IsRun(w, run + s) <==> (|run| >= 2 && w == run) || IsRun(w, s[1..])
  {
    var t, skipped := run + s, |run| + 1;
    RunFromParts(w, run, s);
    if i, j :| RunAt(t, i, j) && t[i..j] == w {
      if i <= |run| {
        FirstRun(run, s, i, j);
      } else {
        assert t[skipped..] == s[1..] && !IsWordChar(t[|run|]);
        RunMoves(t, s[1..], skipped, i - skipped, j - skipped);
      }
    }
  }

  lemma RunMoves(t: string, rest: string, skipped: nat, i: int, j: int)
    requires 0 < skipped <= |t| && rest == t[skipped..] && !IsWordChar(t[skipped - 1]) && i >= 0
    ensures RunAt(rest, i, j) <==> RunAt(t, i + skipped, j + skipped)
    ensures RunAt(rest, i, j) ==> rest[i..j] == t[i + skipped..j + skipped]
  {
    assert forall k :: 0 <= k < |rest| ==> rest[k] == t[k + skipped];
    if RunAt(t, i + skipped, j + skipped) {
      forall k | i <= k < j ensures IsWordChar(rest[k]) { assert IsWordChar(t[k + skipped]); }
    }
    if RunAt(rest, i, j) {
      forall k | i + skipped <= k < j + skipped ensures IsWordChar(t[k]) { assert IsWordChar(rest[k - skipped]); }
      SliceMoves(t, skipped, i, j);
    }
  }

  lemma SliceMoves(t: string, skipped: nat, i: int, j: int)
    requires skipped <= |t| && 0 <= i <= j <= |t| - skipped
    ensures t[skipped..][i..j] == t[i + skipped..j + skipped]
  {
    var a, b := t[skipped..][i..j], t[i + skipped..j + skipped];
    assert |a| == |b| && forall k :: 0 <= k < |a| ==> a[k] == b[k];
  }

  lemma {:induction false} SplitRuns(s: string, run: string, w: string)
    requires forall k :: 0 <= k < |run| ==> IsWordChar(run[k])
    ensures w in Split(s, run) <==> IsRun(w, run + s)
    decreases |s|
  {
    if s == "" {
      assert run + s == run;
      WholeRun(w, run);
    } else if IsWordChar(s[0]) {
      assert (run + [s[0]]) + s[1..] == run + s;
      SplitRuns(s[1..], run + [s[0]], w);
    } else {
      assert "" + s[1..] == s[1..];
      SplitRuns(s[1..], "", w);
      RunsPart(w, run, s);
    }
  }

  /** The words of a text are exactly its maximal runs of two or more letters and digits. */
  lemma WordsAreRuns(s: string, w: string)
    ensures w in Words(s) <==> IsRun(w, s)
  {
    SplitRuns(s, "", w);
    assert "" + s == s;
  }

  // ---- Signatures -------------------------------------------------------------------

  const NUM_HASHES: nat := 64
  const UNSET: nat := 0xFFFF_FFFF

  /** The hashed value of a word in a slot. */
  type HashFamily = (string, nat) -> nat

  function Slot(words: seq<string>, hash: HashFamily, k: nat): nat {
    if words == [] then UNSET
    else
      var rest, hashed := Slot(words[..|words| - 1], hash, k), hash(words[|words| - 1], k);
      if hashed < rest then hashed else rest
  }

  function Signature(words: seq<string>, hash: HashFamily): (sig: seq<nat>)
    ensures |sig| == NUM_HASHES
    ensures forall k :: 0 <= k < NUM_HASHES ==> sig[k] == Slot(words, hash, k)
  {
    seq(NUM_HASHES, k requires 0 <= k < NUM_HASHES => Slot(words, hash, k))
  }

  /** A slot holds the least hashed value of any word. */
  lemma {:induction false} SlotIsLeast(words: seq<string>, hash: HashFamily, k: nat)
    ensures Slot(words, hash, k) <= UNSET
    ensures forall w :: w in words ==> Slot(words, hash, k) <= hash(w, k)
    ensures Slot(words, hash, k) == UNSET || exists w :: w in words && hash(w, k) == Slot(words, hash, k)
  {
    if words != [] {
      var front, last := words[..|words| - 1], words[|words| - 1];
      SlotIsLeast(front, hash, k);
      assert words == front + [last];
    }
  }

  /** Order and repetition of the words do not matter. */
  lemma SignatureOfSet(s: seq<string>, t: seq<string>, hash: HashFamily)
    requires ToSet(s) == ToSet(t)
    ensures Signature(s, hash) == Signature(t, hash)
  {
    forall w ensures w in s <==> w in t { assert w in ToSet(s) <==> w in ToSet(t); }
    forall k | 0 <= k < NUM_HASHES ensures Slot(s, hash, k) == Slot(t, hash, k) {
      SlotIsLeast(s, hash, k);
      SlotIsLeast(t, hash, k);
    }
  }

  /** The signature of two texts together is, slot by slot, the smaller of theirs. */
  lemma {:induction false} SlotOfUnion(s: seq<string>, t: seq<string>, hash: HashFamily, k: nat)
    ensures Slot(s + t, hash, k) == Min(Slot(s, hash, k), Slot(t, hash, k))
    decreases |t|
  {
    if t == [] {
      assert s + t == s;
      SlotIsLeast(s, hash, k);
    } else {
      assert (s + t)[..|s + t| - 1] == s + t[..|t| - 1];
      SlotOfUnion(s, t[..|t| - 1], hash, k);
    }
  }

  lemma SlotNext(words: seq<string>, hash: HashFamily, i: nat, k: nat)
    requires i < |words|
    ensures Slot(words[..i + 1], hash, k)
      == if hash(words[i], k) < Slot(words[..i], hash, k) then hash(words[i], k) else Slot(words[..i], hash, k)
  {
    assert words[..i + 1][..i] == words[..i];
  }

  /** Lower every slot of the signature to the least hashed value met. */
  method ComputeMinHash(words: seq<string>, hash: HashFamily) returns (sig: array<nat>)
    ensures fresh(sig) && sig[..] == Signature(words, hash)
  {
    sig := new nat[NUM_HASHES](_ => UNSET);
    for i := 0 to |words|
      invariant fresh(sig) && sig.Length == NUM_HASHES
      invariant forall q :: 0 <= q < NUM_HASHES ==> sig[q] == Slot(words[..i], hash, q)
    {
      AddWord(words, hash, i, sig);
    }
    assert words[..|words|] == words;
  }

  method AddWord(words: seq<string>, hash: HashFamily, i: nat, sig: array<nat>)
    requires i < |words| && sig.Length == NUM_HASHES
    requires forall q :: 0 <= q < NUM_HASHES ==> sig[q] == Slot(words[..i], hash, q)
    modifies sig
    ensures forall q :: 0 <= q < NUM_HASHES ==> sig[q] == Slot(words[..i + 1], hash, q)
  {
    for k := 0 to NUM_HASHES
      invariant forall q :: 0 <= q < k ==> sig[q] == Slot(words[..i + 1], hash, q)
      invariant forall q :: k <= q < NUM_HASHES ==> sig[q] == Slot(words[..i], hash, q)
    {
      SlotNext(words, hash, i, k);
      var hashed := hash(words[i], k);
      if hashed < sig[k] { sig[k] := hashed; }
    }
  }

  // ---- Agreement --------------------------------------------------------------------

  function Matches(a: seq<nat>, b: seq<nat>, n: nat): (m: nat)
    requires n <= |a| && n <= |b|
    ensures m <= n
  {
    if n == 0 then 0 else Matches(a, b, n - 1) + if a[n - 1] == b[n - 1] then 1 else 0
  }

  function Agreement(a: seq<nat>, b: seq<nat>): real
    requires |a| == |b| == NUM_HASHES
  {
    Matches(a, b, NUM_HASHES) as real / 64.0
  }

  method MinhashJaccard(a: seq<nat>, b: seq<nat>) returns (r: real)
    requires |a| == |b| == NUM_HASHES
    ensures r == Agreement(a, b)
  {
    var matches := 0;
    for k := 0 to NUM_HASHES
      invariant matches == Matches(a, b, k)
    {
      if a[k] == b[k] { matches := matches + 1; }
    }
    r := matches as real / NUM_HASHES as real;
  }

  /** When each value is the smaller of two, it agrees with one of them, or with both where they agree. */
  lemma {:induction false} SplitMatches(a: seq<nat>, b: seq<nat>, c: seq<nat>, n: nat)
    requires n <= |a| && n <= |b| && n <= |c|
    requires forall k :: 0 <= k < n ==> a[k] == Min(b[k], c[k])
    ensures Matches(a, b, n) + Matches(a, c, n) == n + Matches(b, c, n)
  {
    if n > 0 { SplitMatches(a, b, c, n - 1); }
  }

  /** How a text that joins the words of two others agrees with them, under every hash family. */
  lemma UnionAgreements(all: seq<string>, s: seq<string>, t: seq<string>, hash: HashFamily)
    requires ToSet(all) == ToSet(s) + ToSet(t)
    ensures var a, b, c := Signature(all, hash), Signature(s, hash), Signature(t, hash);
      Matches(a, b, NUM_HASHES) + Matches(a, c, NUM_HASHES) == NUM_HASHES + Matches(b, c, NUM_HASHES)
  {
    assert ToSet(s + t) == ToSet(all);
    SignatureOfSet(all, s + t, hash);
    forall k | 0 <= k < NUM_HASHES ensures Slot(s + t, hash, k) == Min(Slot(s, hash, k), Slot(t, hash, k)) {
      SlotOfUnion(s, t, hash, k);
    }
    SplitMatches(Signature(all, hash), Signature(s, hash), Signature(t, hash), NUM_HASHES);
  }

  lemma {:induction false} AllMatchIff(a: seq<nat>, b: seq<nat>, n: nat)
    requires n <= |a| && n <= |b|
    ensures Matches(a, b, n) == n <==> forall k :: 0 <= k < n ==> a[k] == b[k]
  {
    if n > 0 { AllMatchIff(a, b, n - 1); }
  }

  /** Signatures that agree exactly on the slots from `lo` to `hi`. */
  lemma {:induction false} MatchesInterval(a: seq<nat>, b: seq<nat>, lo: nat, hi: nat, n: nat)
    requires n <= |a| && n <= |b|
    requires forall k :: 0 <= k < n ==> (a[k] == b[k] <==> lo <= k < hi)
    ensures Matches(a, b, n) == Max(0, Min(n, hi) - lo)
  {
    if n > 0 { MatchesInterval(a, b, lo, hi, n - 1); }
  }
}
