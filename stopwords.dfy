/**
 * The stopword preprocessor (cvdd/preprocessors/stopwords.py): tokenise a
 * text, drop empty tokens and stopwords, and join what is left with single
 * spaces.
 *
 * The default stopword list (NLTK's English corpus) is a parameter. The
 * default tokenizer is AllenNLP's whitespace tokenizer, which is Python's
 * `str.split()` with no separator; any other tokenizer is an arbitrary
 * function from a text to its token texts.
 */
module Stopwords {
  import opened Wrappers

  /** The characters for which Python's `str.isspace()` holds. */
  predicate IsSpace(c: char) {
    c in {'\t', '\n', '\U{000B}', '\U{000C}', '\r', '\U{001C}', '\U{001D}', '\U{001E}', '\U{001F}',
          ' ', '\U{0085}', '\U{00A0}', '\U{1680}', '\U{2028}', '\U{2029}', '\U{202F}', '\U{205F}',
          '\U{3000}'}
    || ('\U{2000}' <= c <= '\U{200A}')
  }

  /** A word as `str.split()` produces it: non-empty and free of whitespace. */
  predicate IsWord(w: string) {
    w != [] && forall i :: 0 <= i < |w| ==> !IsSpace(w[i])
  }

  /** Length of the leading run of non-whitespace characters. */
  function WordLength(s: string): (n: nat)
    ensures n <= |s|
    ensures forall i :: 0 <= i < n ==> !IsSpace(s[i])
    ensures n < |s| ==> IsSpace(s[n])
  {
    if s == [] || IsSpace(s[0]) then 0 else 1 + WordLength(s[1..])
  }

  /** `s.split()`: the maximal runs of non-whitespace characters, in order. */
  function Split(s: string): (words: seq<string>)
    ensures forall w :: w in words ==> IsWord(w)
    decreases |s|
  {
    if s == [] then []
    else if IsSpace(s[0]) then Split(s[1..])
    else
      var n := WordLength(s);
      [s[..n]] + Split(s[n..])
  }

  /** `" ".join(words)`. */
  function Join(words: seq<string>): string {
    if |words| == 0 then ""
    else if |words| == 1 then words[0]
    else words[0] + " " + Join(words[1..])
  }

  /** The tokenizer the preprocessor was built with. */
  datatype Tokenizer = WhitespaceTokenizer | CustomTokenizer(tokenize: string -> seq<string>)

  function Tokenize(tokenizer: Tokenizer, s: string): seq<string> {
    match tokenizer
    case WhitespaceTokenizer => Split(s)
    case CustomTokenizer(f) => f(s)
  }

  /** A configured preprocessor: its stopword set and its tokenizer. */
  datatype Preprocessor = Preprocessor(stopwords: set<string>, tokenizer: Tokenizer)

  /**
   * The constructor: `set(stopwords or default)`, so that both an omitted and
   * an empty list fall back to the default list; likewise for the tokenizer.
   */
  function NewPreprocessor(stopwords: Option<seq<string>>, tokenizer: Option<Tokenizer>,
                           defaultStopwords: seq<string>): (p: Preprocessor)
    ensures stopwords.None? || stopwords.value == [] ==>
      (forall w :: w in p.stopwords <==> w in defaultStopwords)
    ensures stopwords.Some? && stopwords.value != [] ==>
      (forall w :: w in p.stopwords <==> w in stopwords.value)
    ensures tokenizer.None? ==> p.tokenizer.WhitespaceTokenizer?
    ensures tokenizer.Some? ==> p.tokenizer == tokenizer.value
  {
    var words := if stopwords.None? || stopwords.value == [] then defaultStopwords else stopwords.value;
    Preprocessor(set w | w in words, if tokenizer.None? then WhitespaceTokenizer else tokenizer.value)
  }

  /** The comprehension of `__call__`: the non-empty tokens outside the stopword set. */
  function Filter(tokens: seq<string>, stopwords: set<string>): (kept: seq<string>)
    ensures |kept| <= |tokens|
    ensures forall w :: w in kept <==> w in tokens && w != "" && w !in stopwords
  {
    if tokens == [] then []
    else if tokens[0] != "" && tokens[0] !in stopwords then [tokens[0]] + Filter(tokens[1..], stopwords)
    else Filter(tokens[1..], stopwords)
  }

  /** `__call__`. */
  function Apply(p: Preprocessor, data: string): string {
    Join(Filter(Tokenize(p.tokenizer, data), p.stopwords))
  }

  /** Filtering commutes with concatenation, so the surviving tokens keep their order. */
  lemma {:induction false} FilterAppend(a: seq<string>, b: seq<string>, stopwords: set<string>)
    ensures Filter(a + b, stopwords) == Filter(a, stopwords) + Filter(b, stopwords)
    decreases |a|
  {
    if a == [] {
      assert a + b == b;
    } else {
      FilterAppend(a[1..], b, stopwords);
      assert (a + b)[1..] == a[1..] + b;
    }
  }

  /** Tokens that are all non-empty non-stopwords pass the filter unchanged. */
  lemma {:induction false} FilterKeepsAll(tokens: seq<string>, stopwords: set<string>)
    requires forall w :: w in tokens ==> w != "" && w !in stopwords
    ensures Filter(tokens, stopwords) == tokens
    decreases |tokens|
  {
    if tokens != [] {
      forall w | w in tokens[1..] ensures w in tokens {
        var i :| 0 <= i < |tokens[1..]| && tokens[1..][i] == w;
        assert tokens[i + 1] == w;
      }
      FilterKeepsAll(tokens[1..], stopwords);
      assert tokens[0] in tokens;
      assert tokens == [tokens[0]] + tokens[1..];
    }
  }

  /** Joining non-empty words gives the empty string only for no words at all. */
  lemma JoinEmpty(words: seq<string>)
    requires forall w :: w in words ==> w != ""
    ensures Join(words) == "" <==> words == []
  {
    if words != [] {
      assert words[0] in words;
      assert |Join(words)| >= |words[0]|;
    }
  }

  /**
   * The output is the empty string exactly when every token of the input is
   * empty or a stopword.
   */
  lemma EmptyIffOnlyStopwords(p: Preprocessor, data: string)
    ensures Apply(p, data) == "" <==>
      forall w :: w in Tokenize(p.tokenizer, data) ==> w == "" || w in p.stopwords
  {
    var kept := Filter(Tokenize(p.tokenizer, data), p.stopwords);
    JoinEmpty(kept);
    if kept != [] {
      assert kept[0] in kept;
    }
  }

  /** The leading word of `w + " " + rest` is `w`. */
  lemma {:induction false} WordLengthOfJoined(w: string, rest: string)
    requires IsWord(w)
    ensures WordLength(w + " " + rest) == |w|
    decreases |w|
  {
    if |w| > 1 {
      assert IsWord(w[1..]) by {
        forall i | 0 <= i < |w[1..]| ensures !IsSpace(w[1..][i]) {
          assert w[1..][i] == w[i + 1];
        }
      }
      WordLengthOfJoined(w[1..], rest);
      assert (w + " " + rest)[1..] == w[1..] + " " + rest;
    } else {
      assert (w + " " + rest)[1..] == " " + rest;
    }
  }

  /** The leading word of `w` alone is `w`. */
  lemma {:induction false} WordLengthOfWord(w: string)
    requires IsWord(w)
    ensures WordLength(w) == |w|
    decreases |w|
  {
    if |w| > 1 {
      assert IsWord(w[1..]) by {
        forall i | 0 <= i < |w[1..]| ensures !IsSpace(w[1..][i]) {
          assert w[1..][i] == w[i + 1];
        }
      }
      WordLengthOfWord(w[1..]);
    }
  }

  /** Splitting a single-space join of words gives the words back. */
  lemma {:induction false} SplitJoin(words: seq<string>)
    requires forall w :: w in words ==> IsWord(w)
    ensures Split(Join(words)) == words
    decreases |words|
  {
    if |words| == 1 {
      var w := words[0];
      WordLengthOfWord(w);
      assert w[|w|..] == [];
      assert w[..|w|] == w;
    } else if |words| > 1 {
      var w := words[0];
      var rest := Join(words[1..]);
      var s := w + " " + rest;
      assert Join(words) == s;
      WordLengthOfJoined(w, rest);
      assert s[..|w|] == w;
      assert s[|w|..] == " " + rest;
      assert (" " + rest)[1..] == rest;
      SplitJoin(words[1..]);
      assert words == [w] + words[1..];
    }
  }

  /**
   * With the whitespace tokenizer, preprocessing an already preprocessed
   * text changes nothing.
   */
  lemma PreprocessIdempotent(p: Preprocessor, data: string)
    requires p.tokenizer.WhitespaceTokenizer?
    ensures Apply(p, Apply(p, data)) == Apply(p, data)
  {
    var kept := Filter(Split(data), p.stopwords);
    SplitJoin(kept);
    FilterKeepsAll(kept, p.stopwords);
  }
}
