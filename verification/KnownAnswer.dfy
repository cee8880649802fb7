/**
  The digest of "abc", the one-block example published with SHA-256, worked eight words and four rounds at a time. A
  wrong constant, rotation, word order or length field in Sha256.dfy would not lead to these numbers.
 */
module KnownAnswer {
  import opened Bytes
  import opened Sha256

  const ABC: seq<byte> := [0x61, 0x62, 0x63]

  // The message, padded: one block.
  function Block(): (b: seq<byte>)
    ensures |b| == 64
  {
    ABC + [0x80] + Zeros(52) + [0, 0, 0, 0, 0, 0, 0, 24]
  }

  datatype Eight = Eight(a: bv32, b: bv32, c: bv32, d: bv32, e: bv32, f: bv32, g: bv32, h: bv32)

  // ------------------------------------------------------------ the schedule

  // Words t to t + 7 of the message schedule.
  function WordsAt(b: seq<byte>, t: nat): Eight
    requires |b| == 64 && t + 8 <= 64
  {
    hide Schedule;
    Eight(Schedule(b, t), Schedule(b, t + 1), Schedule(b, t + 2), Schedule(b, t + 3), Schedule(b, t + 4),
      Schedule(b, t + 5), Schedule(b, t + 6), Schedule(b, t + 7))
  }

  // The eight words after p and q.
  function NextWords(p: Eight, q: Eight): Eight {
    var (a, b) := (NextWord(p.a, p.b, q.b, q.g), NextWord(p.b, p.c, q.c, q.h));
    var (c, d) := (NextWord(p.c, p.d, q.d, a), NextWord(p.d, p.e, q.e, b));
    var (e, f) := (NextWord(p.e, p.f, q.f, c), NextWord(p.f, p.g, q.g, d));
    Eight(a, b, c, d, e, f, NextWord(p.g, p.h, q.h, e), NextWord(p.h, q.a, a, f))
  }

  lemma WordsTurn(b: seq<byte>, t: nat)
    requires |b| == 64 && 16 <= t <= 56
    ensures WordsAt(b, t) == NextWords(WordsAt(b, t - 16), WordsAt(b, t - 8))
  {
    hide Schedule, NextWord;
    WordTurn(b, t);
    WordTurn(b, t + 1);
    WordTurn(b, t + 2);
    WordTurn(b, t + 3);
    WordTurn(b, t + 4);
    WordTurn(b, t + 5);
    WordTurn(b, t + 6);
    WordTurn(b, t + 7);
  }

  lemma WordTurn(b: seq<byte>, t: nat)
    requires |b| == 64 && 16 <= t < 64
    ensures Schedule(b, t)
         == NextWord(Schedule(b, t - 16), Schedule(b, t - 15), Schedule(b, t - 7), Schedule(b, t - 2))
  {
    hide NextWord;
  }

  const W0 := Eight(0x61626380, 0x00000000, 0x00000000, 0x00000000, 0x00000000, 0x00000000, 0x00000000, 0x00000000)
  const W1 := Eight(0x00000000, 0x00000000, 0x00000000, 0x00000000, 0x00000000, 0x00000000, 0x00000000, 0x00000018)
  const W2 := Eight(0x61626380, 0x000f0000, 0x7da86405, 0x600003c6, 0x3e9d7b78, 0x0183fc00, 0x12dcbfdb, 0xe2e2c38e)
  const W3 := Eight(0xc8215c1a, 0xb73679a2, 0xe5bc3909, 0x32663c5b, 0x9d209d67, 0xec8726cb, 0x702138a4, 0xd3b7973b)
  const W4 := Eight(0x93f5997f, 0x3b68ba73, 0xaff4ffc1, 0xf10a5c62, 0x0a8b3996, 0x72af830a, 0x9409e33e, 0x24641522)
  const W5 := Eight(0x9f47bf94, 0xf0a64f5a, 0x3e246a79, 0x27333ba3, 0x0c4763f2, 0x840abf27, 0x7a290d5d, 0x065c43da)
  const W6 := Eight(0xfb3e89cb, 0xcc7617db, 0xb9e66c34, 0xa9993667, 0x84badedd, 0xc21462bc, 0x1487472c, 0xb20f7a99)
  const W7 := Eight(0xef57b9cd, 0xebe6b238, 0x9fe3095e, 0x78bc8d4b, 0xa43fcf15, 0x668b2ff8, 0xeeaba2cc, 0x12b1edeb)

  lemma BlockWord(t: nat, w: bv32)
    requires t < 16
    requires var b, i := Block(), 4 * t; w == GetWord([b[i], b[i + 1], b[i + 2], b[i + 3]])
    ensures Schedule(Block(), t) == w
  {
    hide GetWord, Block, NextWord;
    var b, i := Block(), 4 * t;
    assert b[i..i + 4] == [b[i], b[i + 1], b[i + 2], b[i + 3]];
  }

  lemma FirstWords()
    ensures WordsAt(Block(), 0) == W0 && WordsAt(Block(), 8) == W1
  {
    hide Schedule;
    BlockWord(0, W0.a);
    BlockWord(15, W1.h);
    forall t | 1 <= t < 15
      ensures Schedule(Block(), t) == 0
    {
      BlockWord(t, 0);
    }
  }

  lemma SparseWords()
    ensures NextWord(0x61626380, 0x00000000, 0x00000000, 0x00000000) == 0x61626380
    ensures NextWord(0x00000000, 0x00000000, 0x00000000, 0x00000018) == 0x000f0000
    ensures NextWord(0x00000000, 0x00000000, 0x00000000, 0x61626380) == 0x7da86405
    ensures NextWord(0x00000000, 0x00000000, 0x00000000, 0x000f0000) == 0x600003c6
    ensures NextWord(0x00000000, 0x00000000, 0x00000000, 0x7da86405) == 0x3e9d7b78
    ensures NextWord(0x00000000, 0x00000000, 0x00000000, 0x600003c6) == 0x0183fc00
    ensures NextWord(0x00000000, 0x00000000, 0x00000018, 0x3e9d7b78) == 0x12dcbfdb
    ensures NextWord(0x00000000, 0x00000000, 0x61626380, 0x0183fc00) == 0xe2e2c38e
  {
  }

  lemma Words2()
    ensures NextWords(W0, W1) == W2
  {
    hide NextWord;
    SparseWords();
  }

  lemma Words3()
    ensures NextWords(W1, W2) == W3
  {
  }

  lemma Words4()
    ensures NextWords(W2, W3) == W4
  {
  }

  lemma Words5()
    ensures NextWords(W3, W4) == W5
  {
  }

  lemma Words6()
    ensures NextWords(W4, W5) == W6
  {
  }

  lemma Words7()
    ensures NextWords(W5, W6) == W7
  {
  }

  // ------------------------------------------------------------ the rounds

  lemma RoundTurn(v: Working, b: seq<byte>, t: nat)
    requires |b| == 64 && t < 64
    ensures Rounds(v, b, t + 1) == Round(Rounds(v, b, t), Constants()[t], Schedule(b, t))
  {
    hide Round, Constants, Schedule;
  }

  const X0 := Working(0x6a09e667, 0xbb67ae85, 0x3c6ef372, 0xa54ff53a, 0x510e527f, 0x9b05688c, 0x1f83d9ab, 0x5be0cd19)
  const X4 := Working(0xd550f666, 0xc8c347a7, 0x5a6ad9ad, 0x5d6aebcd, 0x24e00850, 0xf92939eb, 0x78ce7989, 0xfa2a4622)
  const X8 := Working(0x85a07b5f, 0xe5030380, 0x2b4209f5, 0x04409a6a, 0x0c657a79, 0x9b27a401, 0x714260ad, 0x43ada245)
  const X12 := Working(0xf71fc5a9, 0x4798a3f4, 0x8c87346b, 0x8e04ecb9, 0x816fd6e9, 0x436b23e8, 0x1cc92596, 0x32ca2d8c)
  const X16 := Working(0xb0fa238e, 0xc0645fde, 0xd932eb16, 0x87912990, 0x07590dcd, 0x0b92f20c, 0x745a48de, 0x1e578218)
  const X20 := Working(0xe1f20c33, 0xfe777bbf, 0xc2fbd9d1, 0x21da9a9b, 0xb0638179, 0xcc899961, 0x846ee454, 0x8034229c)
  const X24 := Working(0xc5d53d8d, 0xa7a3623f, 0xc2606d6d, 0x9dc68b63, 0xaa47c347, 0x49f5114a, 0xe1257970, 0x8ada8930)
  const X28 := Working(0x77d37528, 0xb62ec4bc, 0xcde8037d, 0x1c2c2838, 0xedffbff8, 0xc74c6516, 0x14383d8e, 0x2823ef91)
  const X32 := Working(0x73b33bf5, 0xea992a22, 0xa0060b30, 0x363482c9, 0xba591112, 0x0109ab3a, 0xade79437, 0x6112a3b7)
  const X36 := Working(0x65a0cfe4, 0xa9a7738c, 0xfe604df5, 0x98e12507, 0xf4b002d6, 0x085f3833, 0x59249dd3, 0x9cd9f5f6)
  const X40 := Working(0x79ea687a, 0x6dc57a8a, 0x34df1604, 0x41a65cb1, 0x1efbc0a0, 0xf0781bc8, 0xa507a53d, 0x0772a26b)
  const X44 := Working(0x9d4baf93, 0x17aa0dfe, 0xdf46652f, 0xd6670766, 0xfda24c2e, 0xdecd4715, 0x838b2711, 0x26352d63)
  const X48 := Working(0x4172328d, 0xa14c14b0, 0x72ab4b91, 0x26628815, 0xfecf0bc6, 0xd57b94a9, 0xb7755da1, 0xa80f11f0)
  const X52 := Working(0x886e7a22, 0x7a0508a1, 0xf11bfaa8, 0x05757ceb, 0x49231c1e, 0x52f1ccf7, 0x6e5c390c, 0xbd714038)
  const X56 := Working(0x38cc9913, 0x3ec45cdb, 0xf5702fdb, 0x101fd28f, 0x54cb266b, 0xe50e1b4f, 0x9f4787c3, 0x529e7d00)
  const X60 := Working(0xb6ae8fff, 0xffb70472, 0xc062d46f, 0xfcd1887b, 0xb21bad3d, 0x6d83bfc6, 0x7e44008e, 0x9b5e906c)
  const X64 := Working(0x506e3058, 0xd39a2165, 0x04d24d6c, 0xb85e2ce9, 0x5ef50f24, 0xfb121210, 0x948d25b6, 0x961f4894)

  // The state after one more round: six of its words move, two are new.
  lemma Took(b: seq<byte>, x: Working, t: nat, k: bv32, w: bv32, a: bv32, e: bv32) returns (y: Working)
    requires |b| == 64 && t < 64 && Rounds(X0, b, t) == x && Constants()[t] == k && Schedule(b, t) == w
    requires Round(x, k, w) == Working(a, x.a, x.b, x.c, e, x.e, x.f, x.g)
    ensures y == Working(a, x.a, x.b, x.c, e, x.e, x.f, x.g) && Rounds(X0, b, t + 1) == y
  {
    hide Round, Constants, Schedule;
    y := Working(a, x.a, x.b, x.c, e, x.e, x.f, x.g);
    RoundTurn(X0, b, t);
  }

  lemma Rounds4(b: seq<byte>)
    requires |b| == 64 && WordsAt(b, 0) == W0 && Rounds(X0, b, 0) == X0
    ensures Rounds(X0, b, 4) == X4
  {
    hide Rounds, Schedule;
    var x := Took(b, X0, 0, 0x428a2f98, 0x61626380, 0x5d6aebcd, 0xfa2a4622);
    x := Took(b, x, 1, 0x71374491, 0x00000000, 0x5a6ad9ad, 0x78ce7989);
    x := Took(b, x, 2, 0xb5c0fbcf, 0x00000000, 0xc8c347a7, 0xf92939eb);
    x := Took(b, x, 3, 0xe9b5dba5, 0x00000000, 0xd550f666, 0x24e00850);
  }

  lemma Rounds8(b: seq<byte>)
    requires |b| == 64 && WordsAt(b, 0) == W0 && Rounds(X0, b, 4) == X4
    ensures Rounds(X0, b, 8) == X8
  {
    hide Rounds, Schedule;
    var x := Took(b, X4, 4, 0x3956c25b, 0x00000000, 0x04409a6a, 0x43ada245);
    x := Took(b, x, 5, 0x59f111f1, 0x00000000, 0x2b4209f5, 0x714260ad);
    x := Took(b, x, 6, 0x923f82a4, 0x00000000, 0xe5030380, 0x9b27a401);
    x := Took(b, x, 7, 0xab1c5ed5, 0x00000000, 0x85a07b5f, 0x0c657a79);
  }

  lemma Rounds12(b: seq<byte>)
    requires |b| == 64 && WordsAt(b, 8) == W1 && Rounds(X0, b, 8) == X8
    ensures Rounds(X0, b, 12) == X12
  {
    hide Rounds, Schedule;
    var x := Took(b, X8, 8, 0xd807aa98, 0x00000000, 0x8e04ecb9, 0x32ca2d8c);
    x := Took(b, x, 9, 0x12835b01, 0x00000000, 0x8c87346b, 0x1cc92596);
    x := Took(b, x, 10, 0x243185be, 0x00000000, 0x4798a3f4, 0x436b23e8);
    x := Took(b, x, 11, 0x550c7dc3, 0x00000000, 0xf71fc5a9, 0x816fd6e9);
  }

  lemma Rounds16(b: seq<byte>)
    requires |b| == 64 && WordsAt(b, 8) == W1 && Rounds(X0, b, 12) == X12
    ensures Rounds(X0, b, 16) == X16
  {
    hide Rounds, Schedule;
    var x := Took(b, X12, 12, 0x72be5d74, 0x00000000, 0x87912990, 0x1e578218);
    x := Took(b, x, 13, 0x80deb1fe, 0x00000000, 0xd932eb16, 0x745a48de);
    x := Took(b, x, 14, 0x9bdc06a7, 0x00000000, 0xc0645fde, 0x0b92f20c);
    x := Took(b, x, 15, 0xc19bf174, 0x00000018, 0xb0fa238e, 0x07590dcd);
  }

  lemma Rounds20(b: seq<byte>)
    requires |b| == 64 && WordsAt(b, 16) == W2 && Rounds(X0, b, 16) == X16
    ensures Rounds(X0, b, 20) == X20
  {
    hide Rounds, Schedule;
    var x := Took(b, X16, 16, 0xe49b69c1, 0x61626380, 0x21da9a9b, 0x8034229c);
    x := Took(b, x, 17, 0xefbe4786, 0x000f0000, 0xc2fbd9d1, 0x846ee454);
    x := Took(b, x, 18, 0x0fc19dc6, 0x7da86405, 0xfe777bbf, 0xcc899961);
    x := Took(b, x, 19, 0x240ca1cc, 0x600003c6, 0xe1f20c33, 0xb0638179);
  }

  lemma Rounds24(b: seq<byte>)
    requires |b| == 64 && WordsAt(b, 16) == W2 && Rounds(X0, b, 20) == X20
    ensures Rounds(X0, b, 24) == X24
  {
    hide Rounds, Schedule;
    var x := Took(b, X20, 20, 0x2de92c6f, 0x3e9d7b78, 0x9dc68b63, 0x8ada8930);
    x := Took(b, x, 21, 0x4a7484aa, 0x0183fc00, 0xc2606d6d, 0xe1257970);
    x := Took(b, x, 22, 0x5cb0a9dc, 0x12dcbfdb, 0xa7a3623f, 0x49f5114a);
    x := Took(b, x, 23, 0x76f988da, 0xe2e2c38e, 0xc5d53d8d, 0xaa47c347);
  }

  lemma Rounds28(b: seq<byte>)
    requires |b| == 64 && WordsAt(b, 24) == W3 && Rounds(X0, b, 24) == X24
    ensures Rounds(X0, b, 28) == X28
  {
    hide Rounds, Schedule;
    var x := Took(b, X24, 24, 0x983e5152, 0xc8215c1a, 0x1c2c2838, 0x2823ef91);
    x := Took(b, x, 25, 0xa831c66d, 0xb73679a2, 0xcde8037d, 0x14383d8e);
    x := Took(b, x, 26, 0xb00327c8, 0xe5bc3909, 0xb62ec4bc, 0xc74c6516);
    x := Took(b, x, 27, 0xbf597fc7, 0x32663c5b, 0x77d37528, 0xedffbff8);
  }

  lemma Rounds32(b: seq<byte>)
    requires |b| == 64 && WordsAt(b, 24) == W3 && Rounds(X0, b, 28) == X28
    ensures Rounds(X0, b, 32) == X32
  {
    hide Rounds, Schedule;
    var x := Took(b, X28, 28, 0xc6e00bf3, 0x9d209d67, 0x363482c9, 0x6112a3b7);
    x := Took(b, x, 29, 0xd5a79147, 0xec8726cb, 0xa0060b30, 0xade79437);
    x := Took(b, x, 30, 0x06ca6351, 0x702138a4, 0xea992a22, 0x0109ab3a);
    x := Took(b, x, 31, 0x14292967, 0xd3b7973b, 0x73b33bf5, 0xba591112);
  }

  lemma Rounds36(b: seq<byte>)
    requires |b| == 64 && WordsAt(b, 32) == W4 && Rounds(X0, b, 32) == X32
    ensures Rounds(X0, b, 36) == X36
  {
    hide Rounds, Schedule;
    var x := Took(b, X32, 32, 0x27b70a85, 0x93f5997f, 0x98e12507, 0x9cd9f5f6);
    x := Took(b, x, 33, 0x2e1b2138, 0x3b68ba73, 0xfe604df5, 0x59249dd3);
    x := Took(b, x, 34, 0x4d2c6dfc, 0xaff4ffc1, 0xa9a7738c, 0x085f3833);
    x := Took(b, x, 35, 0x53380d13, 0xf10a5c62, 0x65a0cfe4, 0xf4b002d6);
  }

  lemma Rounds40(b: seq<byte>)
    requires |b| == 64 && WordsAt(b, 32) == W4 && Rounds(X0, b, 36) == X36
    ensures Rounds(X0, b, 40) == X40
  {
    hide Rounds, Schedule;
    var x := Took(b, X36, 36, 0x650a7354, 0x0a8b3996, 0x41a65cb1, 0x0772a26b);
    x := Took(b, x, 37, 0x766a0abb, 0x72af830a, 0x34df1604, 0xa507a53d);
    x := Took(b, x, 38, 0x81c2c92e, 0x9409e33e, 0x6dc57a8a, 0xf0781bc8);
    x := Took(b, x, 39, 0x92722c85, 0x24641522, 0x79ea687a, 0x1efbc0a0);
  }

  lemma Rounds44(b: seq<byte>)
    requires |b| == 64 && WordsAt(b, 40) == W5 && Rounds(X0, b, 40) == X40
    ensures Rounds(X0, b, 44) == X44
  {
    hide Rounds, Schedule;
    var x := Took(b, X40, 40, 0xa2bfe8a1, 0x9f47bf94, 0xd6670766, 0x26352d63);
    x := Took(b, x, 41, 0xa81a664b, 0xf0a64f5a, 0xdf46652f, 0x838b2711);
    x := Took(b, x, 42, 0xc24b8b70, 0x3e246a79, 0x17aa0dfe, 0xdecd4715);
    x := Took(b, x, 43, 0xc76c51a3, 0x27333ba3, 0x9d4baf93, 0xfda24c2e);
  }

  lemma Rounds48(b: seq<byte>)
    requires |b| == 64 && WordsAt(b, 40) == W5 && Rounds(X0, b, 44) == X44
    ensures Rounds(X0, b, 48) == X48
  {
    hide Rounds, Schedule;
    var x := Took(b, X44, 44, 0xd192e819, 0x0c4763f2, 0x26628815, 0xa80f11f0);
    x := Took(b, x, 45, 0xd6990624, 0x840abf27, 0x72ab4b91, 0xb7755da1);
    x := Took(b, x, 46, 0xf40e3585, 0x7a290d5d, 0xa14c14b0, 0xd57b94a9);
    x := Took(b, x, 47, 0x106aa070, 0x065c43da, 0x4172328d, 0xfecf0bc6);
  }

  lemma Rounds52(b: seq<byte>)
    requires |b| == 64 && WordsAt(b, 48) == W6 && Rounds(X0, b, 48) == X48
    ensures Rounds(X0, b, 52) == X52
  {
    hide Rounds, Schedule;
    var x := Took(b, X48, 48, 0x19a4c116, 0xfb3e89cb, 0x05757ceb, 0xbd714038);
    x := Took(b, x, 49, 0x1e376c08, 0xcc7617db, 0xf11bfaa8, 0x6e5c390c);
    x := Took(b, x, 50, 0x2748774c, 0xb9e66c34, 0x7a0508a1, 0x52f1ccf7);
    x := Took(b, x, 51, 0x34b0bcb5, 0xa9993667, 0x886e7a22, 0x49231c1e);
  }

  lemma Rounds56(b: seq<byte>)
    requires |b| == 64 && WordsAt(b, 48) == W6 && Rounds(X0, b, 52) == X52
    ensures Rounds(X0, b, 56) == X56
  {
    hide Rounds, Schedule;
    var x := Took(b, X52, 52, 0x391c0cb3, 0x84badedd, 0x101fd28f, 0x529e7d00);
    x := Took(b, x, 53, 0x4ed8aa4a, 0xc21462bc, 0xf5702fdb, 0x9f4787c3);
    x := Took(b, x, 54, 0x5b9cca4f, 0x1487472c, 0x3ec45cdb, 0xe50e1b4f);
    x := Took(b, x, 55, 0x682e6ff3, 0xb20f7a99, 0x38cc9913, 0x54cb266b);
  }

  lemma Rounds60(b: seq<byte>)
    requires |b| == 64 && WordsAt(b, 56) == W7 && Rounds(X0, b, 56) == X56
    ensures Rounds(X0, b, 60) == X60
  {
    hide Rounds, Schedule;
    var x := Took(b, X56, 56, 0x748f82ee, 0xef57b9cd, 0xfcd1887b, 0x9b5e906c);
    x := Took(b, x, 57, 0x78a5636f, 0xebe6b238, 0xc062d46f, 0x7e44008e);
    x := Took(b, x, 58, 0x84c87814, 0x9fe3095e, 0xffb70472, 0x6d83bfc6);
    x := Took(b, x, 59, 0x8cc70208, 0x78bc8d4b, 0xb6ae8fff, 0xb21bad3d);
  }

  lemma Rounds64(b: seq<byte>)
    requires |b| == 64 && WordsAt(b, 56) == W7 && Rounds(X0, b, 60) == X60
    ensures Rounds(X0, b, 64) == X64
  {
    hide Rounds, Schedule;
    var x := Took(b, X60, 60, 0x90befffa, 0xa43fcf15, 0xb85e2ce9, 0x961f4894);
    x := Took(b, x, 61, 0xa4506ceb, 0x668b2ff8, 0x04d24d6c, 0x948d25b6);
    x := Took(b, x, 62, 0xbef9a3f7, 0xeeaba2cc, 0xd39a2165, 0xfb121210);
    x := Took(b, x, 63, 0xc67178f2, 0x12b1edeb, 0x506e3058, 0x5ef50f24);
  }

  lemma NoRounds(v: Working, b: seq<byte>)
    requires |b| == 64
    ensures Rounds(v, b, 0) == v
  {
  }

  lemma AllRounds(b: seq<byte>)
    requires b == Block()
    ensures Rounds(X0, b, 64) == X64
  {
    hide Rounds, WordsAt, NextWords, Block;
    FirstWords();
    WordsTurn(b, 16);
    Words2();
    WordsTurn(b, 24);
    Words3();
    WordsTurn(b, 32);
    Words4();
    WordsTurn(b, 40);
    Words5();
    WordsTurn(b, 48);
    Words6();
    WordsTurn(b, 56);
    Words7();
    NoRounds(X0, b);
    Rounds4(b);
    Rounds8(b);
    Rounds12(b);
    Rounds16(b);
    Rounds20(b);
    Rounds24(b);
    Rounds28(b);
    Rounds32(b);
    Rounds36(b);
    Rounds40(b);
    Rounds44(b);
    Rounds48(b);
    Rounds52(b);
    Rounds56(b);
    Rounds60(b);
    Rounds64(b);
  }

  // ------------------------------------------------------------ the digest

  lemma PadIsBlock()
    ensures Pad(ABC) == Block()
  {
    hide Quotient, Modulo, ToByte;
    Divided(3, 64, 0, 3);
    Divided(116, 64, 1, 52);
    LengthIs24();
  }

  lemma LengthIs24()
    ensures BigEndian64(24) == [0, 0, 0, 0, 0, 0, 0, 24]
  {
    hide Quotient, Modulo, ToByte;
    CastTo(0);
    CastTo(24);
    forall i | 0 <= i < 8
      ensures LengthByte(24, i) == if i == 7 then 24 else 0
    {
      Divided(24, 256, 0, 24);
      Divided(0, 256, 0, 0);
      if i < 7 { NothingShifted(6 - i); }
    }
  }

  lemma {:induction false} NothingShifted(n: nat)
    ensures Shifted(0, n) == 0
    decreases n
  {
    if n > 0 {
      Divided(0, 256, 0, 0);
      NothingShifted(n - 1);
    }
  }

  const OUT: seq<bv32> := [0xba7816bf, 0x8f01cfea, 0x414140de, 0x5dae2223,
    0xb00361a3, 0x96177a9c, 0xb410ff61, 0xf20015ad]

  const DIGEST_OF_ABC: seq<byte> :=
    [0xba, 0x78, 0x16, 0xbf, 0x8f, 0x01, 0xcf, 0xea,
     0x41, 0x41, 0x40, 0xde, 0x5d, 0xae, 0x22, 0x23,
     0xb0, 0x03, 0x61, 0xa3, 0x96, 0x17, 0x7a, 0x9c,
     0xb4, 0x10, 0xff, 0x61, 0xf2, 0x00, 0x15, 0xad]

  lemma OutWords()
    ensures PutWord(0xba7816bf) == [0xba, 0x78, 0x16, 0xbf]
    ensures PutWord(0x8f01cfea) == [0x8f, 0x01, 0xcf, 0xea]
    ensures PutWord(0x414140de) == [0x41, 0x41, 0x40, 0xde]
    ensures PutWord(0x5dae2223) == [0x5d, 0xae, 0x22, 0x23]
    ensures PutWord(0xb00361a3) == [0xb0, 0x03, 0x61, 0xa3]
    ensures PutWord(0x96177a9c) == [0x96, 0x17, 0x7a, 0x9c]
    ensures PutWord(0xb410ff61) == [0xb4, 0x10, 0xff, 0x61]
    ensures PutWord(0xf20015ad) == [0xf2, 0x00, 0x15, 0xad]
  {
  }

  lemma WordBytes(w: seq<bv32>, i: nat)
    requires i < |w|
    ensures Serialize(w[i..]) == PutWord(w[i]) + Serialize(w[i + 1..])
  {
    hide PutWord;
    assert w[i..][1..] == w[i + 1..];
  }

  lemma LastBytes()
    ensures Serialize(OUT[4..]) == DIGEST_OF_ABC[16..]
  {
    hide Serialize, PutWord;
    OutWords();
    WordBytes(OUT, 4);
    WordBytes(OUT, 5);
    WordBytes(OUT, 6);
    WordBytes(OUT, 7);
    NoWords();
  }

  lemma NoWords()
    ensures Serialize([]) == []
  {
  }

  lemma OutBytes()
    ensures Serialize(OUT) == DIGEST_OF_ABC
  {
    hide Serialize, PutWord;
    OutWords();
    WordBytes(OUT, 0);
    WordBytes(OUT, 1);
    WordBytes(OUT, 2);
    WordBytes(OUT, 3);
    LastBytes();
    assert OUT[0..] == OUT;
    assert DIGEST_OF_ABC == DIGEST_OF_ABC[..16] + DIGEST_OF_ABC[16..];
  }

  /** The digest of "abc" as published. */
  lemma DigestOfAbc()
    ensures Digest(ABC) == DIGEST_OF_ABC
  {
    hide Block, Compress, Fold, Serialize, Pad;
    PadIsBlock();
    FoldOne(Initial(), Block());
    Compressed();
    OutBytes();
  }

  lemma Compressed()
    ensures Compress(Initial(), Block()) == OUT
  {
    hide Rounds, Block;
    AllRounds(Block());
  }
}
