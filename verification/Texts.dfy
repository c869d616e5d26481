/** Texts in parts: splitting at a separator and joining again. */
module Texts {
  function Split(sep: char, s: string): (parts: seq<string>)
    ensures |parts| >= 1
  {
    if s == [] then [""]
    else
      var rest := Split(sep, s[1..]);
      if s[0] == sep then [""] + rest else [[s[0]] + rest[0]] + rest[1..]
  }

  function Join(sep: char, parts: seq<string>): string
    requires |parts| >= 1
  {
    if |parts| == 1 then parts[0] else parts[0] + [sep] + Join(sep, parts[1..])
  }

  lemma {:induction false} JoinOfSplit(sep: char, s: string)
    ensures Join(sep, Split(sep, s)) == s
  {
    if s != [] {
      var rest := Split(sep, s[1..]);
      JoinOfSplit(sep, s[1..]);
      if s[0] == sep {
        assert ([""] + rest)[1..] == rest;
        assert "" + [sep] + Join(sep, rest) == s;
      } else {
        var parts := [[s[0]] + rest[0]] + rest[1..];
        assert parts[1..] == rest[1..];
        if |parts| == 1 {
          assert [s[0]] + rest[0] == s;
        } else {
          assert [s[0]] + rest[0] + [sep] + Join(sep, rest[1..]) == [s[0]] + (rest[0] + [sep] + Join(sep, rest[1..]));
        }
      }
    }
  }

  /** Every character of a text is a separator or lies in one of its parts. */
  lemma {:induction false} SplitChars(sep: char, s: string, i: nat)
    requires i < |s|
    ensures s[i] == sep || exists k :: 0 <= k < |Split(sep, s)| && s[i] in Split(sep, s)[k]
  {
    var rest := Split(sep, s[1..]);
    if s[0] == sep {
      if i > 0 {
        SplitChars(sep, s[1..], i - 1);
        if s[i] != sep {
          var k :| 0 <= k < |rest| && s[i] in rest[k];
          assert Split(sep, s)[k + 1] == rest[k];
        }
      }
    } else if i == 0 {
      assert s[0] in Split(sep, s)[0];
    } else {
      SplitChars(sep, s[1..], i - 1);
      if s[i] != sep {
        var k :| 0 <= k < |rest| && s[i] in rest[k];
        assert s[i] in Split(sep, s)[k];
      }
    }
  }

  lemma {:induction false} SplitOfPart(sep: char, part: string, rest: string)
    requires sep !in part
    ensures Split(sep, part + [sep] + rest) == [part] + Split(sep, rest)
    ensures Split(sep, part) == [part]
  {
    if part == "" {
      assert (part + [sep] + rest)[1..] == rest;
    } else {
      SplitOfPart(sep, part[1..], rest);
      assert (part + [sep] + rest)[1..] == part[1..] + [sep] + rest;
      assert [part[0]] + part[1..] == part;
      assert ([part[1..]] + Split(sep, rest))[1..] == Split(sep, rest);
    }
  }

  /** Splitting undoes joining. */
  lemma {:induction false} SplitOfJoin(sep: char, parts: seq<string>)
    requires |parts| >= 1 && forall i | 0 <= i < |parts| :: sep !in parts[i]
    ensures Split(sep, Join(sep, parts)) == parts
  {
    if |parts| == 1 {
      SplitOfPart(sep, parts[0], "");
    } else {
      SplitOfJoin(sep, parts[1..]);
      SplitOfPart(sep, parts[0], Join(sep, parts[1..]));
      assert [parts[0]] + parts[1..] == parts;
    }
  }
}
