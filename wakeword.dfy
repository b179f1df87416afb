/**
 * The wake-word test `getting_bots_attention`: is the lower-cased bot name
 * one of the whitespace-separated tokens of the lower-cased transcript?
 */
module WakeWord {

  /** Client.BOT_NAME */
  const BotName: string := "Jarvis"

  /** The characters `str.split()` treats as separators. */
  predicate IsSpace(c: char)
  {
    c == ' ' || c == '\t' || c == '\n' || c == '\r' || c == '\U{000B}' || c == '\U{000C}'
  }

  predicate NoSpace(w: string)
  {
    forall k :: 0 <= k < |w| ==> !IsSpace(w[k])
  }

  function LowerChar(c: char): char
  {
    if 'A' <= c <= 'Z' then (c as int + 32) as char else c
  }

  /** `str.lower()` */
  function Lower(s: string): string
  {
    seq(|s|, i requires 0 <= i < |s| => LowerChar(s[i]))
  }

  /** Lower-casing leaves no upper-case letter and keeps every other character,
      so the whitespace that `split()` cuts at stays where it was. */
  lemma LowerFoldsCase(s: string)
    ensures |Lower(s)| == |s|
    ensures forall k :: 0 <= k < |s| ==> !('A' <= Lower(s)[k] <= 'Z')
    ensures forall k :: 0 <= k < |s| && !('A' <= s[k] <= 'Z') ==> Lower(s)[k] == s[k]
    ensures forall k :: 0 <= k < |s| ==> (IsSpace(Lower(s)[k]) <==> IsSpace(s[k]))
  {
    forall k | 0 <= k < |s|
      ensures !('A' <= Lower(s)[k] <= 'Z') && (IsSpace(Lower(s)[k]) <==> IsSpace(s[k]))
    {
      assert Lower(s)[k] == LowerChar(s[k]);
    }
  }

  /** Length of the run of non-space characters that starts `s`. */
  function TokenLen(s: string): (n: nat)
    requires s != [] && !IsSpace(s[0])
    ensures 1 <= n <= |s|
    ensures forall k :: 0 <= k < n ==> !IsSpace(s[k])
    ensures n == |s| || IsSpace(s[n])
    decreases |s|
  {
    if |s| == 1 || IsSpace(s[1]) then 1 else 1 + TokenLen(s[1..])
  }

  /** `str.split()` with no separator: maximal runs of non-space characters, in order. */
  function Split(s: string): (ws: seq<string>)
    ensures forall w :: w in ws ==> w != [] && NoSpace(w)
    decreases |s|
  {
    if s == [] then []
    else if IsSpace(s[0]) then Split(s[1..])
    else
      var n := TokenLen(s);
      [s[..n]] + Split(s[n..])
  }

  /** `w` occurs in `s` at `i` as a whole word: a non-empty run of non-space
      characters with a separator or an end of `s` on each side. */
  predicate WordAt(s: string, w: string, i: int)
  {
    0 <= i && i + |w| <= |s| && s[i..i + |w|] == w && w != [] && NoSpace(w)
    && (i == 0 || IsSpace(s[i - 1])) && (i + |w| == |s| || IsSpace(s[i + |w|]))
  }

  /** A whole word of `s` found after a separator at its head is a whole word of the rest. */
  lemma WordAfterSpace(s: string, w: string, i: int)
    requires s != [] && IsSpace(s[0]) && WordAt(s, w, i)
    ensures i >= 1 && WordAt(s[1..], w, i - 1)
  {
    assert i != 0 by { assert s[i..i + |w|][0] == w[0]; }
    assert s[1..][i - 1..i - 1 + |w|] == s[i..i + |w|];
  }

  /** A whole word of `s` past its first token is a whole word of what follows the token. */
  lemma WordAfterToken(s: string, w: string, i: int)
    requires s != [] && !IsSpace(s[0]) && WordAt(s, w, i) && i != 0
    ensures var n := TokenLen(s); i > n && WordAt(s[n..], w, i - n)
  {
    var n := TokenLen(s);
    assert IsSpace(s[i - 1]);
    assert s[n..][i - n..i - n + |w|] == s[i..i + |w|];
  }

  /** A whole word at the very start of `s` is its first token. */
  lemma WordAtStart(s: string, w: string)
    requires s != [] && !IsSpace(s[0]) && WordAt(s, w, 0)
    ensures w == s[..TokenLen(s)]
  {
    // a shorter w would end inside the first token, a longer one would
    // swallow the separator that ends it
  }

  /** Every whole word of `s` is one of its `split()` tokens. */
  lemma {:induction false} WholeWordIsToken(s: string, w: string, i: int)
    requires WordAt(s, w, i)
    ensures w in Split(s)
    decreases |s|
  {
    if IsSpace(s[0]) {
      WordAfterSpace(s, w, i);
      WholeWordIsToken(s[1..], w, i - 1);
    } else if i == 0 {
      WordAtStart(s, w);
    } else {
      var n := TokenLen(s);
      WordAfterToken(s, w, i);
      WholeWordIsToken(s[n..], w, i - n);
    }
  }

  /** A whole word of a suffix `s[k..]` is a whole word of `s`, unless it
      starts the suffix right after a non-space character. */
  lemma WordShift(s: string, k: nat, w: string, j: int)
    requires k <= |s| && WordAt(s[k..], w, j)
    requires j > 0 || k == 0 || IsSpace(s[k - 1])
    ensures WordAt(s, w, k + j)
  {
    var t := s[k..];
    assert s[k + j..k + j + |w|] == t[j..j + |w|];
    if j > 0 {
      assert s[k + j - 1] == t[j - 1];
    }
    if k + j + |w| < |s| {
      assert s[k + j + |w|] == t[j + |w|];
    }
  }

  /** Every `split()` token of `s` is a whole word of `s`. */
  lemma {:induction false} TokenIsWholeWord(s: string, w: string) returns (i: int)
    requires w in Split(s)
    ensures WordAt(s, w, i)
    decreases |s|
  {
    if IsSpace(s[0]) {
      var j := TokenIsWholeWord(s[1..], w);
      WordShift(s, 1, w, j);
      i := 1 + j;
    } else {
      var n := TokenLen(s);
      assert Split(s) == [s[..n]] + Split(s[n..]);
      if w == s[..n] {
        i := 0;
      } else {
        var j := TokenIsWholeWord(s[n..], w);
        assert j != 0 by {
          assert s[n..][j..j + |w|][0] == w[0];
        }
        WordShift(s, n, w, j);
        i := n + j;
      }
    }
  }

  /** The tokens of `split()` are exactly the whole words of the string. */
  lemma SplitFindsWholeWords(s: string, w: string)
    ensures w in Split(s) <==> exists i :: WordAt(s, w, i)
  {
    if w in Split(s) {
      var i := TokenIsWholeWord(s, w);
    }
    if i :| WordAt(s, w, i) {
      WholeWordIsToken(s, w, i);
    }
  }

  /** `getting_bots_attention(text)`. The bot's attention is caught exactly when
      "jarvis" is a whole word of the lower-cased text: case does not matter,
      substrings of longer words do not count. */
  predicate GettingBotsAttention(text: string): (b: bool)
    ensures b <==> exists i :: WordAt(Lower(text), "jarvis", i)
  {
    assert Lower(BotName) == "jarvis";
    SplitFindsWholeWords(Lower(text), "jarvis");
    Lower(BotName) in Split(Lower(text))
  }

  /** Lower-casing leaves a string without upper-case letters unchanged. */
  lemma LowerOfLowerCase(s: string)
    requires forall k :: 0 <= k < |s| ==> !('A' <= s[k] <= 'Z')
    ensures Lower(s) == s
  {
  }

  lemma AttentionMatchesUpperCase()
    ensures GettingBotsAttention("hey JARVIS")
  {
    var s := Lower("hey JARVIS");
    assert s == "hey jarvis" by {
      forall k | 0 <= k < 10 ensures s[k] == "hey jarvis"[k] {
        assert s[k] == LowerChar("hey JARVIS"[k]);
      }
    }
    assert s[4..10] == "jarvis";
    assert NoSpace("jarvis");
    assert WordAt(s, "jarvis", 4);
  }

  lemma NoWholeJarvisInJarviston()
    ensures forall i :: !WordAt("jarviston", "jarvis", i)
  {
    var s := "jarviston";
    forall i ensures !WordAt(s, "jarvis", i) {
      if 0 <= i && i + 6 <= |s| {
        if i == 0 {
          assert !IsSpace(s[i + 6]);
        } else {
          assert s[i..i + 6][0] != 'j';
        }
      }
    }
  }

  lemma AttentionIgnoresLongerWord()
    ensures !GettingBotsAttention("Jarviston")
  {
    var s := Lower("Jarviston");
    assert s == "jarviston" by {
      forall k | 0 <= k < 9 ensures s[k] == "jarviston"[k] {
        assert s[k] == LowerChar("Jarviston"[k]);
      }
    }
    NoWholeJarvisInJarviston();
  }

  lemma NoWholeJarvisInHeyjarvis()
    ensures forall i :: !WordAt("heyjarvis", "jarvis", i)
  {
    var s := "heyjarvis";
    forall i ensures !WordAt(s, "jarvis", i) {
      if 0 <= i && i + 6 <= |s| {
        if i == 3 {
          assert !IsSpace(s[i - 1]);
        } else {
          assert s[i..i + 6][0] != 'j';
        }
      }
    }
  }

  lemma AttentionIgnoresSuffix()
    ensures !GettingBotsAttention("heyjarvis")
  {
    LowerOfLowerCase("heyjarvis");
    NoWholeJarvisInHeyjarvis();
  }
}
