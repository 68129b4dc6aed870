/**
 * Operations on Java strings, modelled as sequences of characters:
 * `String.contains` and the text a `StringBuilder` accumulates when
 * every line is followed by a line separator.
 */
module Text {

  /** `t` occurs in `s` starting at index `i`. */
  predicate OccursAt(s: string, t: string, i: nat)
  {
    i + |t| <= |s| && s[i..i + |t|] == t
  }

  /** `s.contains(t)`: a case-sensitive substring test, scanning from the left. */
  predicate Contains(s: string, t: string)
    decreases |s|
  {
    t <= s || (|s| > 0 && Contains(s[1..], t))
  }

  /** A string contains every string that occurs at one of its indices. */
  lemma {:induction false} OccursContains(s: string, t: string, i: nat)
    requires OccursAt(s, t, i)
    ensures Contains(s, t)
    decreases i
  {
    if i > 0 {
      assert s[1..][i - 1..i - 1 + |t|] == s[i..i + |t|];
      OccursContains(s[1..], t, i - 1);
    }
  }

  /** A string that contains `t` has an occurrence of `t` at some index. */
  lemma {:induction false} ContainsOccurs(s: string, t: string) returns (i: nat)
    requires Contains(s, t)
    ensures OccursAt(s, t, i)
    decreases |s|
  {
    if t <= s {
      i := 0;
    } else {
      var j := ContainsOccurs(s[1..], t);
      assert s[1..][j..j + |t|] == s[j + 1..j + 1 + |t|];
      i := j + 1;
    }
  }

  /** A non-empty string cannot occur where its first character does not. */
  lemma {:induction false} FirstCharMissing(s: string, t: string)
    requires |t| > 0 && t[0] !in s
    ensures !Contains(s, t)
    decreases |s|
  {
    if |s| > 0 {
      assert s[0] != t[0];
      FirstCharMissing(s[1..], t);
    }
  }

  /** `Contains` holds exactly when `t` occurs at some index of `s`. */
  lemma ContainsIffOccurs(s: string, t: string)
    ensures Contains(s, t) <==> exists i: nat :: OccursAt(s, t, i)
  {
    if Contains(s, t) {
      var i := ContainsOccurs(s, t);
    }
    forall i: nat | OccursAt(s, t, i) ensures Contains(s, t) {
      OccursContains(s, t, i);
    }
  }

  /** A string that contains `u` contains everything `u` contains. */
  lemma ContainsTransitive(s: string, u: string, t: string)
    requires Contains(s, u) && Contains(u, t)
    ensures Contains(s, t)
  {
    var i := ContainsOccurs(s, u);
    var j := ContainsOccurs(u, t);
    forall k | 0 <= k < |t| ensures s[i + j..i + j + |t|][k] == t[k] {
      assert t[k] == u[j + k];
      assert u[j + k] == s[i..i + |u|][j + k];
    }
    assert OccursAt(s, t, i + j);
    OccursContains(s, t, i + j);
  }

  /** The text of the lines, each followed by `sep`, the last one included. */
  function Join(lines: seq<string>, sep: string): string
  {
    if lines == [] then "" else lines[0] + sep + Join(lines[1..], sep)
  }

  /** Total number of characters in the lines. */
  function SumLengths(lines: seq<string>): nat
  {
    if lines == [] then 0 else |lines[0]| + SumLengths(lines[1..])
  }

  /** Joining two blocks of lines concatenates their texts. */
  lemma {:induction false} JoinConcat(a: seq<string>, b: seq<string>, sep: string)
    ensures Join(a + b, sep) == Join(a, sep) + Join(b, sep)
  {
    if a == [] {
      assert a + b == b;
    } else {
      assert (a + b)[1..] == a[1..] + b;
      JoinConcat(a[1..], b, sep);
    }
  }

  /** Appending one more line to the lines appends that line and a separator to the text. */
  lemma JoinSnoc(lines: seq<string>, line: string, sep: string)
    ensures Join(lines + [line], sep) == Join(lines, sep) + line + sep
  {
    JoinConcat(lines, [line], sep);
    assert Join([line], sep) == line + sep + Join([], sep);
  }

  /**
   * Every line occurs in the text, in order, immediately followed by the
   * separator: nothing is lost, duplicated or reordered.
   */
  lemma JoinSplit(lines: seq<string>, sep: string, k: nat)
    requires k < |lines|
    ensures Join(lines, sep) == Join(lines[..k], sep) + lines[k] + sep + Join(lines[k + 1..], sep)
  {
    assert lines == lines[..k] + lines[k..];
    JoinConcat(lines[..k], lines[k..], sep);
    assert lines[k..][1..] == lines[k + 1..];
  }

  /** The text is as long as the lines together plus one separator per line. */
  lemma {:induction false} JoinLength(lines: seq<string>, sep: string)
    ensures |Join(lines, sep)| == SumLengths(lines) + |lines| * |sep|
  {
    if lines != [] {
      JoinLength(lines[1..], sep);
      assert |lines| * |sep| == |sep| + (|lines| - 1) * |sep|;
    }
  }
}
