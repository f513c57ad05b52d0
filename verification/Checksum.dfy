/**
 The ICMP checksum of a ping request (daemon/ping.h): the loop over 16-bit words
 in 32-bit arithmetic, its two folds, and what a receiver can conclude from it.
 Reference: one's-complement addition as in section 1 of RFC 1071.
 */
module Checksum {

  type Byte = b: nat | b < 0x100
  type Word = w: nat | w < 0x1_0000

  const WRAP := 0x1_0000_0000
  const ONES := 0xFFFF

  // ---------- The reference ----------

  /** Addition with the carry brought back in at the low end. */
  function AddOnes(a: Word, b: Word): Word {
    if a + b < 0x1_0000 then a + b else a + b - ONES
  }

  function OnesSum(words: seq<Word>): Word {
    if words == [] then 0 else AddOnes(OnesSum(words[..|words| - 1]), words[|words| - 1])
  }

  function Sum(words: seq<Word>): nat {
    if words == [] then 0 else Sum(words[..|words| - 1]) + words[|words| - 1]
  }

  /** The one's-complement sum is the sum modulo 0xFFFF, with 0xFFFF for every multiple but zero itself. */
  function Residue(sum: nat): (w: Word)
    ensures w % ONES == sum % ONES && (w == 0 <==> sum == 0)
  {
    if sum == 0 then 0 else (sum - 1) % ONES + 1
  }

  lemma AddResidue(sum: nat, w: Word)
    ensures AddOnes(Residue(sum), w) == Residue(sum + w)
  {
  }

  lemma {:induction false} OnesSumIsResidue(words: seq<Word>)
    ensures OnesSum(words) == Residue(Sum(words))
  {
    if words != [] {
      OnesSumIsResidue(words[..|words| - 1]);
      AddResidue(Sum(words[..|words| - 1]), words[|words| - 1]);
      hide AddOnes, Residue;
    }
  }

  // ---------- What the code computes ----------

  /** The two folds of the 32-bit sum, without the final complement. */
  function Folded(sum: nat): (w: Word)
    requires sum < WRAP
    ensures w == Residue(sum)
  {
    var once := sum / 0x1_0000 + sum % 0x1_0000;
    var twice := once + once / 0x1_0000;
    OneFold(sum);
    twice % 0x1_0000
  }

  lemma OneFold(sum: nat)
    requires sum < WRAP
    ensures var once := sum / 0x1_0000 + sum % 0x1_0000;
            once <= 2 * ONES && once % ONES == sum % ONES && (once == 0 <==> sum == 0)
  {
    var once := sum / 0x1_0000 + sum % 0x1_0000;
    assert sum == once + ONES * (sum / 0x1_0000);
    ModPlus(once, sum / 0x1_0000);
  }

  lemma ModPlus(x: nat, k: nat)
    ensures (x + ONES * k) % ONES == x % ONES
  {
    if k > 0 {
      ModPlus(x, k - 1);
      assert (x + ONES * k) == (x + ONES * (k - 1)) + ONES;
    }
  }

  function WordAt(raw: seq<Byte>, i: nat): Word
    requires i + 1 < |raw|
  {
    var high: nat := raw[i];
    high * 0x100 + raw[i + 1]
  }

  function Words(raw: seq<Byte>): (words: seq<Word>)
    requires |raw| % 2 == 0
    ensures |words| == |raw| / 2
    ensures forall k :: 0 <= k < |words| ==> words[k] == WordAt(raw, 2 * k)
  {
    seq(|raw| / 2, k requires 0 <= k < |raw| / 2 => WordAt(raw, 2 * k))
  }

  /** The value the code stores for a packet whose checksum field is still zero. */
  function Stored(words: seq<Word>): Word {
    ONES - Folded(Sum(words) % WRAP)
  }

  lemma {:induction false} SumStep(words: seq<Word>, k: nat, sum: nat)
    requires k < |words| && sum == Sum(words[..k]) % WRAP
    ensures (sum + words[k]) % WRAP == Sum(words[..k + 1]) % WRAP
  {
    assert words[..k + 1][..k] == words[..k];
  }

  lemma Complement(sum: nat)
    requires sum < WRAP
    ensures var once := sum / 0x1_0000 + sum % 0x1_0000;
            var twice := once + once / 0x1_0000;
            twice < WRAP && (WRAP - 1 - twice) % 0x1_0000 == ONES - Folded(sum)
  {
    hide Residue;
  }

  /** The checksum loop of StartNextSend, in wrapping 32-bit arithmetic. */
  method Compute(raw: seq<Byte>) returns (stored: Word)
    requires |raw| % 2 == 0
    ensures stored == Stored(Words(raw))
  {
    var checksum: nat := 0;
    var i := 0;
    ghost var words := Words(raw);
    hide Sum, Words, WordAt, Folded;
    while i < |raw|
      invariant 0 <= i <= |raw| && i % 2 == 0
      invariant checksum == Sum(words[..i / 2]) % WRAP
    {
      SumStep(words, i / 2, checksum);
      assert words[i / 2] == WordAt(raw, i);
      checksum := (checksum + WordAt(raw, i)) % WRAP;
      i := i + 2;
    }
    assert words[..i / 2] == words;
    Complement(checksum);
    checksum := checksum / 0x1_0000 + checksum % 0x1_0000;
    checksum := checksum + checksum / 0x1_0000;
    stored := (WRAP - 1 - checksum) % 0x1_0000;
  }

  // ---------- What it is for ----------

  lemma {:induction false} SumOfUpdate(words: seq<Word>, k: nat, w: Word)
    requires k < |words|
    ensures Sum(words[k := w]) == Sum(words) - words[k] + w
  {
    var n := |words| - 1;
    var updated := words[k := w];
    if k == n {
      assert updated[..n] == words[..n];
    } else {
      assert updated[..n] == words[..n][k := w];
      SumOfUpdate(words[..n], k, w);
    }
  }

  /** 2^32 leaves remainder one: every lost carry out of 32 bits leaves the sum one short. */
  lemma LostCarries(sum: nat, folded: Word)
    requires folded == Residue(sum % WRAP)
    ensures Residue(sum + ONES - folded) == ONES <==> sum / WRAP % ONES == 0
  {
    var kept, lost := sum % WRAP, sum / WRAP;
    assert sum == kept + lost + ONES * (0x1_0001 * lost);
    ModPlus(kept + lost, 0x1_0001 * lost);
    var k := kept / ONES;
    assert kept == ONES * k + kept % ONES;
    ModPlus(kept % ONES + lost, k);
    assert sum % ONES == (kept % ONES + lost) % ONES;
    ModDifference(sum, kept % ONES, lost, folded);
  }

  lemma ModDifference(sum: nat, r: nat, lost: nat, folded: Word)
    requires sum % ONES == (r + lost) % ONES && folded % ONES == r < ONES
    requires sum >= folded
    ensures (sum + ONES - folded) % ONES == lost % ONES
    ensures sum + ONES - folded > 0
  {
    assert folded == r || (folded == ONES && r == 0);
  }

  /** Storing the checksum makes the whole packet sum to all ones, if and only if 32 bits lost nothing that matters. */
  lemma StoredSumsToOnes(words: seq<Word>, field: nat)
    requires field < |words| && words[field] == 0
    ensures OnesSum(words[field := Stored(words)]) == ONES <==> Sum(words) / WRAP % ONES == 0
  {
    hide Sum, OnesSum, Folded;
    var sum, stored := Sum(words), Stored(words);
    SumOfUpdate(words, field, stored);
    OnesSumIsResidue(words[field := stored]);
    LostCarries(sum, Folded(sum % WRAP));
  }

  lemma {:induction false} SumBound(words: seq<Word>)
    ensures Sum(words) <= |words| * ONES
  {
    if words != [] {
      SumBound(words[..|words| - 1]);
    }
  }

  /** Up to 65537 words no packet is summed wrongly. */
  lemma ShortPacketsSumToOnes(words: seq<Word>, field: nat)
    requires |words| <= 0x1_0001 && field < |words| && words[field] == 0
    ensures OnesSum(words[field := Stored(words)]) == ONES
  {
    SumBound(words);
    StoredSumsToOnes(words, field);
  }

  lemma {:induction false} SumOfOnes(n: nat)
    ensures Sum(seq(n, _ => ONES as Word)) == n * ONES
  {
    var words := seq(n, _ => ONES as Word);
    if n > 0 {
      assert words[..n - 1] == seq(n - 1, _ => ONES as Word);
      SumOfOnes(n - 1);
    }
  }

  /** With one full word more than that the 32-bit sum overflows and the packet is wrong. */
  lemma LongerPacketFails()
    ensures var words := [0] + seq(0x1_0002, _ => ONES as Word);
            OnesSum(words[0 := Stored(words)]) != ONES
  {
    var full := seq(0x1_0002, _ => ONES as Word);
    var words := [0] + full;
    SumOfOnes(0x1_0002);
    SumOfUpdate([0] + full, 0, 0);
    SumPrepend(0, full);
    StoredSumsToOnes(words, 0);
  }

  lemma {:induction false} SumPrepend(w: Word, words: seq<Word>)
    ensures Sum([w] + words) == w + Sum(words)
  {
    if words != [] {
      var n := |words| - 1;
      assert ([w] + words)[..n + 1] == [w] + words[..n];
      SumPrepend(w, words[..n]);
    } else {
      assert [w] + words == [w];
      assert [w][..0] == [];
    }
  }

  /** A single altered word goes unnoticed only when all zeros became all ones or the reverse. */
  lemma OneWordAltered(words: seq<Word>, k: nat, w: Word)
    requires OnesSum(words) == ONES && k < |words| && w != words[k]
    ensures OnesSum(words[k := w]) == ONES <==>
            (words[k] == 0 && w == ONES) || (words[k] == ONES && w == 0 && Sum(words) > ONES)
  {
    var altered := words[k := w];
    SumOfUpdate(words, k, w);
    OnesSumIsResidue(words);
    OnesSumIsResidue(altered);
    var a, b := Sum(words), Sum(altered);
    assert a % ONES == 0 && a > 0;
    assert b == a - words[k] + w;
    assert b % ONES == 0 <==> (b - a) % ONES == 0;
  }

  // ---------- The request ----------

  const PAYLOAD: seq<Byte> := seq(32, i => (97 + i % 23) as Byte)

  /** The payload is the alphabet as far as w, over and over. */
  lemma PayloadText(i: nat)
    requires i < 32
    ensures i < 23 ==> PAYLOAD[i] == 'a' as int + i
    ensures i >= 23 ==> PAYLOAD[i] == 'a' as int + i - 23
  {
  }

  lemma StoreWord(raw: seq<Byte>, k: nat, w: Word)
    requires |raw| % 2 == 0 && 2 * k < |raw|
    ensures Words(raw[2 * k := w / 0x100][2 * k + 1 := w % 0x100]) == Words(raw)[k := w]
  {
  }

  /** The echo request that StartNextSend sends: type 8, code 0, in network byte order. */
  method BuildRequest(identifier: Word, number: Word) returns (raw: seq<Byte>)
    ensures |raw| == 40 && raw[..2] == [8, 0] && raw[8..] == PAYLOAD
    ensures raw[4] as int * 256 + raw[5] == identifier && raw[6] as int * 256 + raw[7] == number
    ensures OnesSum(Words(raw)) == ONES
  {
    raw := [8, 0, 0, 0, identifier / 0x100, identifier % 0x100, number / 0x100, number % 0x100] + PAYLOAD;
    ghost var words := Words(raw);
    assert words[1] == WordAt(raw, 2) == 0;
    hide Words, OnesSum;
    var checksum := Compute(raw);
    ShortPacketsSumToOnes(words, 1);
    StoreWord(raw, 1, checksum);
    raw := raw[2 := checksum / 0x100][3 := checksum % 0x100];
  }
}
