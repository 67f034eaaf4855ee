/**
 * Three words under the program's hash family, slot by slot. Each slot is given by its two draws
 * and their quotients, so that checking it takes products and sums of known numbers only.
 */
module HashTrace {
  import opened Collections
  import opened MinHash
  import opened HashCoefficients

  datatype Word = Be | Do | No {
    function Text(): string {
      match this
      case Be => "be"
      case Do => "do"
      case No => "no"
    }
  }

  /** The value of a word in the slot whose draws follow the seed. */
  function ValueAfter(seed: nat, w: Word): nat { Affine(CoefficientsAfter(seed), StringHash(w.Text())) }

  /** The word has the least value, and no other has the same. */
  predicate LeastAfter(seed: nat, w: Word) {
    && (w != Be ==> ValueAfter(seed, w) < ValueAfter(seed, Be))
    && (w != Do ==> ValueAfter(seed, w) < ValueAfter(seed, Do))
    && (w != No ==> ValueAfter(seed, w) < ValueAfter(seed, No))
  }

  // ---- One slot, given by its draws ---------------------------------------------------

  /** The word with hash `h` has the least value; `t`, `ti` and `tj` count what the prime cuts off. */
  predicate LeastOf(a: int, b: int, h: int, t: int, i: int, ti: int, j: int, tj: int) {
    var v, vi, vj := a * h + b - t * 2147483647, a * i + b - ti * 2147483647, a * j + b - tj * 2147483647;
    0 <= v < vi < 2147483647 && v < vj < 2147483647
  }

  predicate WordIsLeast(draw: int, next: int, tb: int, td: int, tn: int, least: Word) {
    match least
    case Be => LeastOf(draw + 1, next, 3139, tb, 3211, td, 3521, tn)
    case Do => LeastOf(draw + 1, next, 3211, td, 3139, tb, 3521, tn)
    case No => LeastOf(draw + 1, next, 3521, tn, 3139, tb, 3211, td)
  }

  lemma WordHashes()
    ensures StringHash("be") == 3139 && StringHash("do") == 3211 && StringHash("no") == 3521
  {
    assert StringHashFrom("be", 0) == 3139 && StringHashFrom("do", 0) == 3211 && StringHashFrom("no", 0) == 3521;
  }

  lemma ProductBound(a: nat, h: nat)
    requires a < 2147483648 && h < 4096
    ensures 0 <= a * h < 8796093022208
  {
    var rest := 2147483648 - a;
    assert rest * h >= 0 && (a + rest) * h == a * h + rest * h;
  }

  lemma SmallIsExact(n: nat)
    requires n < TWO_53
    ensures Double(n) == n
  {
  }

  lemma AffineIs(c: Coefficients, h: nat, t: int, v: int)
    requires c.a < 2147483648 && c.b < 2147483648 && h < 4096
    requires v == c.a * h + c.b - t * 2147483647 && 0 <= v < 2147483647
    ensures Affine(c, h) == v
  {
    ProductBound(c.a, h);
    SmallIsExact(c.a * h);
    SmallIsExact(c.a * h + c.b);
    ModOffset(t, 2147483647, v);
  }

  lemma LeastOfIs(c: Coefficients, h: nat, t: int, i: nat, ti: int, j: nat, tj: int)
    requires c.a < 2147483648 && c.b < 2147483648 && h < 4096 && i < 4096 && j < 4096
    requires LeastOf(c.a, c.b, h, t, i, ti, j, tj)
    ensures Affine(c, h) < Affine(c, i) && Affine(c, h) < Affine(c, j)
  {
    AffineIs(c, h, t, c.a * h + c.b - t * 2147483647);
    AffineIs(c, i, ti, c.a * i + c.b - ti * 2147483647);
    AffineIs(c, j, tj, c.a * j + c.b - tj * 2147483647);
  }

  lemma CoefficientsBy(seed: nat, draw: nat, next: nat)
    requires NextSeed(seed) == draw < 2147483646 && NextSeed(draw) == next < 2147483646
    ensures CoefficientsAfter(seed) == Coefficients(draw + 1, next)
  {
    ModOffset(0, 2147483646, draw);
    ModOffset(0, 2147483647, next);
  }

  lemma WordIsLeastAfter(seed: nat, draw: nat, next: nat, tb: int, td: int, tn: int, least: Word)
    requires NextSeed(seed) == draw < 2147483646 && NextSeed(draw) == next < 2147483646
    requires WordIsLeast(draw, next, tb, td, tn, least)
    ensures LeastAfter(seed, least)
  {
    CoefficientsBy(seed, draw, next);
    WordHashes();
    var c := CoefficientsAfter(seed);
    match least {
      case Be => LeastOfIs(c, 3139, tb, 3211, td, 3521, tn);
      case Do => LeastOfIs(c, 3211, td, 3139, tb, 3521, tn);
      case No => LeastOfIs(c, 3521, tn, 3139, tb, 3211, td);
    }
  }

  // ---- Going through the slots --------------------------------------------------------

  /** A generator of draws, and whether a word is least in the slot after a seed. */
  datatype Reader = Reader(draw: int -> int, least: (int, Word) -> bool)

  ghost predicate ReadsDraws(g: Reader) {
    forall seed, u, q, wraps, value :: Drawn(seed, u, q, wraps, value) && seed >= 0 ==> g.draw(seed) == value
  }

  ghost predicate ReadsLeast(g: Reader) {
    forall seed, draw, next, tb, td, tn, w, least ::
      (WordIsLeast(draw, next, tb, td, tn, least) && 0 <= seed && g.draw(seed) == draw && g.draw(draw) == next
       && 0 <= draw < 2147483646 && 0 <= next < 2147483646) ==> (g.least(seed, w) <==> w == least)
  }

  function SeedBy(g: Reader, n: nat): int { if n == 0 then 42 else g.draw(g.draw(SeedBy(g, n - 1))) }

  /** In how many of the first `n` slots the word is least. */
  function LeastIn(g: Reader, n: nat, w: Word): nat {
    if n == 0 then 0 else LeastIn(g, n - 1, w) + if g.least(SeedBy(g, n - 1), w) then 1 else 0
  }

  datatype Progress = Progress(slots: nat, seed: int, do: nat, no: nat)

  predicate Reached(g: Reader, p: Progress) {
    SeedBy(g, p.slots) == p.seed && LeastIn(g, p.slots, Do) == p.do && LeastIn(g, p.slots, No) == p.no
  }

  function Moved(p: Progress, next: int, least: Word): Progress {
    Progress(p.slots + 1, next, p.do + if least == Do then 1 else 0, p.no + if least == No then 1 else 0)
  }

  lemma Step(
    g: Reader, p: Progress, seed: int, u1: int, q1: int, wraps1: int, draw: int,
    u2: int, q2: int, wraps2: int, next: int, tb: int, td: int, tn: int, least: Word) returns (r: Progress)
    requires ReadsDraws(g) && ReadsLeast(g) && Reached(g, p) && seed == p.seed >= 0
    requires Drawn(seed, u1, q1, wraps1, draw) && Drawn(draw, u2, q2, wraps2, next)
    requires WordIsLeast(draw, next, tb, td, tn, least)
    ensures r == Moved(p, next, least) && Reached(g, r)
  {
    r := Moved(p, next, least);
  }

  lemma Slots0To4(g: Reader, p: Progress) returns (r: Progress)
    requires ReadsDraws(g) && ReadsLeast(g) && Reached(g, p) && p.seed == 42
    ensures r == Progress(p.slots + 4, 326038272, p.do + 1, p.no + 3)
    ensures Reached(g, r)
  {
    r := p;
    r := Step(g, r, 42, 1, 46347640290, 21, 1250496027,
              256, 5390396209400123, 642585302, 1116302080, 1828, 1870, 2050, Do);
    r := Step(g, r, 1116302080, 256, 4811938919160975, 573627819, 1964818176,
              256, 8469557854957395, 1009649974, 1500480256, 2872, 2938, 3222, No);
    r := Step(g, r, 1500480256, 256, 6467979833271495, 771043280, 1617229568,
              256, 6971240167784235, 831036587, 1480547072, 2364, 2418, 2652, No);
    r := Step(g, r, 1480547072, 256, 6382055722234815, 760800328, 1119088384,
              256, 4823949579087555, 575059602, 326038272, 1635, 1673, 1835, No);
  }

  lemma Slots4To8(g: Reader, p: Progress) returns (r: Progress)
    requires ReadsDraws(g) && ReadsLeast(g) && Reached(g, p) && p.seed == 326038272
    ensures r == Progress(p.slots + 4, 550462976, p.do + 0, p.no + 1)
    ensures Reached(g, r)
  {
    r := p;
    r := Step(g, r, 326038272, 64, 5621690681335260, 167539438, 105359168,
              16, 7266590505532260, 54140318, 486008448, 154, 157, 172, Be);
    r := Step(g, r, 486008448, 64, 8379964555731090, 249742405, 617108672,
              128, 5320225213857068, 317110133, 2141111808, 903, 923, 1012, Be);
    r := Step(g, r, 2141111808, 512, 4614745158940455, 1100240983, 1525579264,
              256, 6576171778437030, 783940765, 1441781248, 2230, 2281, 2502, No);
    r := Step(g, r, 1441781248, 256, 6214951512199710, 740879954, 777145856,
              128, 6699939841285740, 399347534, 550462976, 1136, 1162, 1274, Be);
  }

  lemma Slots8To12(g: Reader, p: Progress) returns (r: Progress)
    requires ReadsDraws(g) && ReadsLeast(g) && Reached(g, p) && p.seed == 550462976
    ensures r == Progress(p.slots + 4, 97686784, p.do + 1, p.no + 3)
    ensures Reached(g, r)
  {
    r := p;
    r := Step(g, r, 550462976, 128, 4745658483000540, 282863288, 224566784,
              32, 7744152177019440, 115396859, 1931572800, 329, 336, 369, No);
    r := Step(g, r, 1931572800, 256, 8326250123544281, 992566361, 1824983296,
              256, 7866784722681045, 937793817, 1803355392, 2668, 2729, 2993, No);
    r := Step(g, r, 1803355392, 256, 7773555340722465, 926680009, 968970496,
              128, 8353700892900090, 497919374, 603827456, 1416, 1449, 1588, Do);
    r := Step(g, r, 603827456, 128, 5205725023793490, 310285390, 1807276288,
              256, 7790456780214885, 928694818, 97686784, 2641, 2702, 2963, No);
  }

  lemma Slots12To16(g: Reader, p: Progress) returns (r: Progress)
    requires ReadsDraws(g) && ReadsLeast(g) && Reached(g, p) && p.seed == 97686784
    ensures r == Progress(p.slots + 4, 577768256, p.do + 2, p.no + 2)
    ensures Reached(g, r)
  {
    r := p;
    r := Step(g, r, 97686784, 16, 6737428461188880, 50197753, 1645191488,
              256, 7091772999813416, 845405220, 2068404224, 2405, 2460, 2698, No);
    r := Step(g, r, 2068404224, 256, 8916076539087480, 1062879149, 1728751616,
              256, 7451967824509320, 888343790, 247052288, 2527, 2585, 2834, Do);
    r := Step(g, r, 247052288, 32, 8519561441254080, 126951358, 723748928,
              128, 6239593559378182, 371908757, 1394914048, 1058, 1082, 1187, No);
    r := Step(g, r, 1394914048, 256, 6012925458721335, 716796572, 120219392,
              16, 8291495738539440, 61776457, 577768256, 175, 180, 197, Do);
  }

  lemma Slots16To20(g: Reader, p: Progress) returns (r: Progress)
    requires ReadsDraws(g) && ReadsLeast(g) && Reached(g, p) && p.seed == 577768256
    ensures r == Progress(p.slots + 4, 1399009280, p.do + 2, p.no + 1)
    ensures Reached(g, r)
  {
    r := p;
    r := Step(g, r, 577768256, 128, 4981063113852052, 296894497, 1084389888,
              256, 4674378019265010, 557229282, 1650074112, 1585, 1622, 1778, Do);
    r := Step(g, r, 1650074112, 256, 7112820070202490, 847914227, 582789632,
              128, 5024353465155780, 299474803, 1109430784, 852, 871, 956, No);
    r := Step(g, r, 1109430784, 256, 4782319466469930, 570096906, 5921280,
              1, 6534222749913600, 3042734, 1239712313, 9, 9, 10, Be);
    r := Step(g, r, 1239712313, 256, 5343911862537936, 637043936, 1192165376,
              256, 5138955730379520, 612611261, 1399009280, 1743, 1783, 1955, Do);
  }

  lemma Slots20To24(g: Reader, p: Progress) returns (r: Progress)
    requires ReadsDraws(g) && ReadsLeast(g) && Reached(g, p) && p.seed == 1399009280
    ensures r == Progress(p.slots + 4, 299516672, p.do + 1, p.no + 1)
    ensures Reached(g, r)
  {
    r := p;
    r := Step(g, r, 1399009280, 256, 6030578392095600, 718900965, 1507565568,
              256, 6498521824707360, 774684169, 1833127936, 2204, 2255, 2472, Do);
    r := Step(g, r, 1833127936, 256, 7901893060200720, 941979057, 1745436672,
              256, 7523890534117440, 896917645, 493907968, 2551, 2610, 2862, No);
    r := Step(g, r, 493907968, 64, 8516171442421440, 253801686, 1795153984,
              256, 7738202298697211, 922465598, 918956800, 2624, 2684, 2943, Be);
    r := Step(g, r, 918956800, 128, 7922522174190750, 472219119, 1970962176,
              256, 8496042220837395, 1012807157, 299516672, 2881, 2947, 3231, Be);
  }

  lemma Slots24To28(g: Reader, p: Progress) returns (r: Progress)
    requires ReadsDraws(g) && ReadsLeast(g) && Reached(g, p) && p.seed == 299516672
    ensures r == Progress(p.slots + 4, 517355008, p.do + 2, p.no + 2)
    ensures Reached(g, r)
  {
    r := p;
    r := Step(g, r, 299516672, 64, 5164393963807260, 153910933, 1817753408,
              256, 7835619521010566, 934078636, 622573056, 2657, 2718, 2980, Do);
    r := Step(g, r, 622573056, 128, 5367334831423740, 319918086, 37793280,
              8, 5213182579819200, 19420618, 1049511480, 55, 56, 62, No);
    r := Step(g, r, 1049511480, 256, 4524030929619190, 539306513, 55125504,
              8, 7603979256538560, 28327030, 330915384, 80, 82, 90, No);
    r := Step(g, r, 330915384, 64, 5705783922641079, 170045611, 2012372480,
              256, 8674545743353350, 1034086435, 517355008, 2941, 3009, 3299, Do);
  }

  lemma Slots28To32(g: Reader, p: Progress) returns (r: Progress)
    requires ReadsDraws(g) && ReadsLeast(g) && Reached(g, p) && p.seed == 517355008
    ensures r == Progress(p.slots + 4, 190724352, p.do + 1, p.no + 1)
    ensures Reached(g, r)
  {
    r := p;
    r := Step(g, r, 517355008, 64, 8920455287579640, 265850284, 698953280,
              128, 6025825000177762, 359167158, 1319133440, 1022, 1045, 1146, Be);
    r := Step(g, r, 1319133440, 256, 5686265082926925, 677855620, 1574403328,
              256, 6786633102448185, 809029710, 1255565568, 2301, 2354, 2581, Do);
    r := Step(g, r, 1255565568, 256, 5412249005410485, 645190358, 1732830464,
              256, 7469550132907905, 890439764, 1305456896, 2533, 2591, 2841, Be);
    r := Step(g, r, 1305456896, 256, 5627310884478045, 670827732, 1331465472,
              256, 5739423619309065, 684192612, 190724352, 1946, 1990, 2183, No);
  }

  lemma Slots32To36(g: Reader, p: Progress) returns (r: Progress)
    requires ReadsDraws(g) && ReadsLeast(g) && Reached(g, p) && p.seed == 190724352
    ensures r == Progress(p.slots + 4, 906337088, p.do + 2, p.no + 1)
    ensures Reached(g, r)
  {
    r := p;
    r := Step(g, r, 190724352, 32, 6577100938273320, 98006441, 578581824,
              128, 4988077056749272, 297312561, 171416576, 845, 865, 948, Do);
    r := Step(g, r, 171416576, 32, 5911275151928160, 88084863, 1932893248,
              256, 8331942055177991, 993244892, 2096051968, 2826, 2891, 3170, Do);
    r := Step(g, r, 2096051968, 512, 4517627541016118, 1077086339, 513580032,
              64, 8855365544368560, 263910458, 1748409408, 751, 768, 842, Be);
    r := Step(g, r, 1748409408, 256, 7536704829021191, 898445228, 475805440,
              64, 8204039948342700, 244499443, 906337088, 695, 711, 780, No);
  }

  lemma Slots36To40(g: Reader, p: Progress) returns (r: Progress)
    requires ReadsDraws(g) && ReadsLeast(g) && Reached(g, p) && p.seed == 906337088
    ensures r == Progress(p.slots + 4, 815425536, p.do + 2, p.no + 1)
    ensures Reached(g, r)
  {
    r := p;
    r := Step(g, r, 906337088, 128, 7813724950913332, 465734300, 154192384,
              32, 5317301450215440, 79233966, 55718464, 225, 230, 252, Be);
    r := Step(g, r, 55718464, 8, 7685771806497960, 28631731, 315561336,
              64, 5441042890758864, 162155714, 763814976, 461, 472, 517, Do);
    r := Step(g, r, 763814976, 128, 6585011487307102, 392497270, 1165680384,
              256, 5024789353677555, 599001568, 2135106304, 1704, 1743, 1912, No);
    r := Step(g, r, 2135106304, 512, 4601801476874228, 1097154969, 910170112,
              128, 7846770266682480, 467703954, 815425536, 1330, 1361, 1492, Do);
  }

  lemma Slots40To44(g: Reader, p: Progress) returns (r: Progress)
    requires ReadsDraws(g) && ReadsLeast(g) && Reached(g, p) && p.seed == 815425536
    ensures r == Progress(p.slots + 4, 367087616, p.do + 2, p.no + 2)
    ensures Reached(g, r)
  {
    r := p;
    r := Step(g, r, 815425536, 128, 7029957110455440, 419018096, 762214400,
              128, 6571212580926000, 391674791, 1352222720, 1114, 1140, 1250, Do);
    r := Step(g, r, 1352222720, 256, 5828899945919400, 694859021, 892590080,
              128, 7695209068873200, 458670203, 48441344, 1304, 1334, 1463, No);
    r := Step(g, r, 48441344, 8, 6681970199036160, 24892278, 1625831480,
              256, 7008319624925440, 835456803, 928067584, 2376, 2431, 2666, No);
    r := Step(g, r, 928067584, 128, 8001068182299360, 476900826, 1781637120,
              256, 7679936417882400, 915519764, 367087616, 2604, 2664, 2921, Do);
  }

  lemma Slots44To48(g: Reader, p: Progress) returns (r: Progress)
    requires ReadsDraws(g) && ReadsLeast(g) && Reached(g, p) && p.seed == 367087616
    ensures r == Progress(p.slots + 4, 24286016, p.do + 0, p.no + 4)
    ensures Reached(g, r)
  {
    r := p;
    r := Step(g, r, 367087616, 64, 6329480945417280, 188633231, 1464811584,
              256, 6314226226549211, 752714422, 1137838848, 2141, 2190, 2402, No);
    r := Step(g, r, 1137838848, 256, 4904775449692335, 584694796, 1640554240,
              256, 7071783648786675, 843022304, 1350116096, 2398, 2453, 2690, No);
    r := Step(g, r, 1350116096, 256, 5819819118968295, 693776502, 1044256512,
              128, 9002757661582230, 536606172, 896662272, 1526, 1561, 1712, No);
    r := Step(g, r, 896662272, 128, 7730316302877630, 460762757, 503451392,
              64, 8680723221694860, 258705712, 24286016, 735, 752, 825, No);
  }

  lemma Slots48To52(g: Reader, p: Progress) returns (r: Progress)
    requires ReadsDraws(g) && ReadsLeast(g) && Reached(g, p) && p.seed == 24286016
    ensures r == Progress(p.slots + 4, 2047307840, p.do + 1, p.no + 0)
    ensures Reached(g, r)
  {
    r := p;
    r := Step(g, r, 24286016, 4, 6699997224078480, 12479717, 707158648,
              128, 6096565224231162, 363383604, 1160293632, 1034, 1057, 1159, Be);
    r := Step(g, r, 1160293632, 256, 5001569185892265, 596233509, 621271296,
              128, 5356112081382090, 319249157, 2121635072, 909, 929, 1019, Be);
    r := Step(g, r, 2121635072, 512, 4572766887263032, 1090232583, 1769381888,
              256, 7627108936073760, 909222237, 1279414272, 2586, 2646, 2901, Do);
    r := Step(g, r, 1279414272, 256, 5515051382119440, 657445357, 211566592,
              32, 7295842487646720, 108716524, 2047307840, 310, 317, 347, Be);
  }

  lemma Slots52To56(g: Reader, p: Progress) returns (r: Progress)
    requires ReadsDraws(g) && ReadsLeast(g) && Reached(g, p) && p.seed == 2047307840
    ensures r == Progress(p.slots + 4, 1675801600, p.do + 3, p.no + 1)
    ensures Reached(g, r)
  {
    r := p;
    r := Step(g, r, 2047307840, 256, 8825138330656331, 1052038470, 1256094464,
              256, 5414528867906655, 645462139, 1278512896, 1836, 1878, 2060, No);
    r := Step(g, r, 1278512896, 256, 5511165904941795, 656982172, 267588352,
              64, 4613872278381660, 137504109, 206128960, 391, 400, 438, Do);
    r := Step(g, r, 206128960, 32, 7108326556124850, 105922319, 1785267840,
              256, 7695587022844612, 917385461, 1437791232, 2610, 2670, 2927, Do);
    r := Step(g, r, 1437791232, 256, 6197752123591140, 738829627, 998904832,
              128, 8611771175126280, 513301561, 1675801600, 1460, 1494, 1638, Do);
  }

  lemma Slots56To60(g: Reader, p: Progress) returns (r: Progress)
    requires ReadsDraws(g) && ReadsLeast(g) && Reached(g, p) && p.seed == 1675801600
    ensures r == Progress(p.slots + 4, 735699456, p.do + 2, p.no + 1)
    ensures Reached(g, r)
  {
    r := p;
    r := Step(g, r, 1675801600, 256, 7223721145294500, 861134665, 1381946368,
              256, 5957026893985860, 710132943, 1861776384, 2020, 2067, 2266, Do);
    r := Step(g, r, 1861776384, 256, 8025385244238180, 956700473, 723620864,
              128, 6238489492375560, 371842950, 275002368, 1057, 1082, 1186, Do);
    r := Step(g, r, 275002368, 64, 4741707898423440, 141313907, 981619776,
              128, 8462753028199102, 504419388, 145329920, 1434, 1467, 1609, No);
    r := Step(g, r, 145329920, 32, 5011680696082200, 74679861, 1942229824,
              256, 8372188359678386, 998042626, 735699456, 2839, 2904, 3184, Be);
  }

  lemma Slots60To64(g: Reader, p: Progress) returns (r: Progress)
    requires ReadsDraws(g) && ReadsLeast(g) && Reached(g, p) && p.seed == 735699456
    ensures r == Progress(p.slots + 4, 63490048, p.do + 3, p.no + 1)
    ensures Reached(g, r)
  {
    r := p;
    r := Step(g, r, 735699456, 128, 6342621604954740, 378049707, 1520527872,
              256, 6554397215622690, 781345035, 1090933248, 2223, 2274, 2493, Do);
    r := Step(g, r, 1090933248, 256, 4702583868927210, 560591682, 145562112,
              32, 5019687802699920, 74799177, 195052096, 212, 217, 238, Do);
    r := Step(g, r, 195052096, 32, 6726342547037610, 100230314, 1156310400,
              256, 4984399040437688, 594186668, 962455552, 1690, 1729, 1896, No);
    r := Step(g, r, 962455552, 128, 8297534173960080, 494571576, 2041313280,
              256, 8799298141800600, 1048958080, 63490048, 2983, 3052, 3346, Do);
  }

  lemma AllSlots(g: Reader)
    requires ReadsDraws(g) && ReadsLeast(g)
    ensures LeastIn(g, NUM_HASHES, Do) == 25 && LeastIn(g, NUM_HASHES, No) == 25
  {
    var r := Progress(0, 42, 0, 0);
    r := Slots0To4(g, r);
    r := Slots4To8(g, r);
    r := Slots8To12(g, r);
    r := Slots12To16(g, r);
    r := Slots16To20(g, r);
    r := Slots20To24(g, r);
    r := Slots24To28(g, r);
    r := Slots28To32(g, r);
    r := Slots32To36(g, r);
    r := Slots36To40(g, r);
    r := Slots40To44(g, r);
    r := Slots44To48(g, r);
    r := Slots48To52(g, r);
    r := Slots52To56(g, r);
    r := Slots56To60(g, r);
    r := Slots60To64(g, r);
  }

  // ---- The signatures of the three words ----------------------------------------------

  function Source(): Reader {
    Reader((s: int) => if s < 0 then 0 else NextSeed(s), (s: int, w: Word) => s >= 0 && LeastAfter(s, w))
  }

  lemma SourceReadsDraws()
    ensures ReadsDraws(Source())
  {
    forall seed, u, q, wraps, value | Drawn(seed, u, q, wraps, value) && seed >= 0
      ensures Source().draw(seed) == value
    {
      DrawnIsNext(seed, u, q, wraps, value);
    }
  }

  lemma SourceReadsLeast()
    ensures ReadsLeast(Source())
  {
    var g := Source();
    forall seed, draw, next, tb, td, tn, w, least |
      WordIsLeast(draw, next, tb, td, tn, least) && 0 <= seed && g.draw(seed) == draw && g.draw(draw) == next
      && 0 <= draw < 2147483646 && 0 <= next < 2147483646
      ensures g.least(seed, w) <==> w == least
    {
      WordIsLeastAfter(seed, draw, next, tb, td, tn, least);
    }
  }

  lemma {:induction false} SourceSeeds(n: nat)
    ensures SeedBy(Source(), n) == Seed(n)
  {
    if n > 0 { SourceSeeds(n - 1); }
  }

  function AllThree(): seq<string> { ["be", "do", "no"] }

  lemma SlotOfOneMore(words: seq<string>, w: string, hash: HashFamily, k: nat)
    ensures Slot(words + [w], hash, k) == Min(Slot(words, hash, k), hash(w, k))
  {
    assert (words + [w])[..|words|] == words;
  }

  /** The slot of all three words is that of two of them unless the third is least. */
  lemma SlotsOfThree(k: nat)
    ensures var h := SourceFamily();
      && (Slot(AllThree(), h, k) == Slot(["be", "do"], h, k) <==> !LeastAfter(Seed(k), No))
      && (Slot(AllThree(), h, k) == Slot(["be", "no"], h, k) <==> !LeastAfter(Seed(k), Do))
  {
    var h := SourceFamily();
    SlotOfOneMore([], "be", h, k);
    SlotOfOneMore(["be"], "do", h, k);
    SlotOfOneMore(["be"], "no", h, k);
    SlotOfOneMore(["be", "do"], "no", h, k);
    assert [] + ["be"] == ["be"] && ["be"] + ["do"] == ["be", "do"] && ["be"] + ["no"] == ["be", "no"];
    assert ["be", "do"] + ["no"] == AllThree();
    assert h("be", k) == ValueAfter(Seed(k), Be) && h("do", k) == ValueAfter(Seed(k), Do);
    assert h("no", k) == ValueAfter(Seed(k), No);
  }

  /** Leaving out a word changes exactly the slots in which it is least. */
  lemma {:induction false} MatchesWithout(words: seq<string>, others: seq<string>, w: Word, n: nat)
    requires n <= NUM_HASHES
    requires forall k :: 0 <= k < n ==>
      (Slot(words, SourceFamily(), k) == Slot(others, SourceFamily(), k) <==> !LeastAfter(Seed(k), w))
    ensures Matches(Signature(words, SourceFamily()), Signature(others, SourceFamily()), n)
      == n - LeastIn(Source(), n, w)
  {
    if n > 0 {
      MatchesWithout(words, others, w, n - 1);
      SourceSeeds(n - 1);
    }
  }

  /** Under the program's own hash family the three words agree with either pair in 39 slots. */
  lemma SourceAgreements()
    ensures var h := SourceFamily();
      && Matches(Signature(AllThree(), h), Signature(["be", "do"], h), NUM_HASHES) == 39
      && Matches(Signature(AllThree(), h), Signature(["be", "no"], h), NUM_HASHES) == 39
  {
    SourceReadsDraws();
    SourceReadsLeast();
    AllSlots(Source());
    forall k: nat ensures var h := SourceFamily();
      && (Slot(AllThree(), h, k) == Slot(["be", "do"], h, k) <==> !LeastAfter(Seed(k), No))
      && (Slot(AllThree(), h, k) == Slot(["be", "no"], h, k) <==> !LeastAfter(Seed(k), Do))
    {
      SlotsOfThree(k);
    }
    MatchesWithout(AllThree(), ["be", "do"], No, NUM_HASHES);
    MatchesWithout(AllThree(), ["be", "no"], Do, NUM_HASHES);
  }
}
