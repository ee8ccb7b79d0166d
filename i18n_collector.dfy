/**
 * `I18nMergeCollector`: folds language -> key -> template maps into one accumulator,
 * merging the translations of each language, the map merged later winning on a duplicate key.
 */
module I18nMergeCollector {
  import opened Wrappers

  /** Language -> translation key -> template. */
  type Translations = map<string, map<string, string>>

  /** The template of one key in one language, if there is one. */
  function Lookup(m: Translations, language: string, key: string): Option<string> {
    if language in m && key in m[language] then Some(m[language][key]) else None
  }

  /** What `merge(acc, inputs)` leaves in `acc`. */
  function DeepMerge(acc: Translations, inputs: Translations): Translations {
    map language | language in acc.Keys + inputs.Keys ::
      if language in inputs then (if language in acc then acc[language] + inputs[language] else inputs[language])
      else acc[language]
  }

  /** The fold `toCollect` performs over a stream, from a fresh empty map. */
  function Collect(sources: seq<Translations>): Translations {
    if |sources| == 0 then map[]
    else DeepMerge(Collect(sources[..|sources| - 1]), sources[|sources| - 1])
  }

  /**
   * After a merge every language of either map is present, a language only in `acc` keeps
   * its translations, and a key keeps the template of `inputs` when it has one there.
   */
  lemma DeepMergeLookup(acc: Translations, inputs: Translations)
    ensures DeepMerge(acc, inputs).Keys == acc.Keys + inputs.Keys
    ensures forall language :: language in acc && language !in inputs ==>
      DeepMerge(acc, inputs)[language] == acc[language]
    ensures forall language, key ::
      Lookup(DeepMerge(acc, inputs), language, key) == (if Lookup(inputs, language, key).Some? then Lookup(inputs, language, key) else Lookup(acc, language, key))
  {
  }

  /** Merging is associative, so the combiner `merge` agrees with the accumulator `merge`. */
  lemma DeepMergeAssociative(a: Translations, b: Translations, c: Translations)
    ensures DeepMerge(DeepMerge(a, b), c) == DeepMerge(a, DeepMerge(b, c))
  {
    var left := DeepMerge(DeepMerge(a, b), c);
    var right := DeepMerge(a, DeepMerge(b, c));
    forall language | language in left ensures language in right && left[language] == right[language] {
      AssociativeAt(a, b, c, language);
    }
    forall language | language in right ensures language in left {
      AssociativeAt(a, b, c, language);
    }
  }

  lemma AssociativeAt(a: Translations, b: Translations, c: Translations, language: string)
    ensures language in DeepMerge(DeepMerge(a, b), c) <==> language in DeepMerge(a, DeepMerge(b, c))
    ensures Get(DeepMerge(DeepMerge(a, b), c), language) == Get(DeepMerge(a, DeepMerge(b, c)), language)
  {
    DeepMergeAt(a, b, language);
    DeepMergeAt(b, c, language);
    DeepMergeAt(DeepMerge(a, b), c, language);
    DeepMergeAt(a, DeepMerge(b, c), language);
    UnionAssociative(Get(a, language), Get(b, language), Get(c, language));
  }

  lemma UnionAssociative(x: map<string, string>, y: map<string, string>, z: map<string, string>)
    ensures (x + y) + z == x + (y + z)
  {
    forall k | k in (x + y) + z ensures k in x + (y + z) && ((x + y) + z)[k] == (x + (y + z))[k] {
    }
    assert ((x + y) + z).Keys == (x + (y + z)).Keys;
  }

  /** The translations of a language, empty when it has none. */
  function Get(m: Translations, language: string): map<string, string> {
    if language in m then m[language] else map[]
  }

  /** One language of a merge: present when present on either side, its translations joined. */
  lemma DeepMergeAt(acc: Translations, inputs: Translations, language: string)
    ensures language in DeepMerge(acc, inputs) <==> language in acc || language in inputs
    ensures Get(DeepMerge(acc, inputs), language) == Get(acc, language) + Get(inputs, language)
  {
    if language in inputs && language !in acc {
      assert Get(acc, language) + Get(inputs, language) == inputs[language];
    }
    if language !in inputs && language in acc {
      assert Get(acc, language) + Get(inputs, language) == acc[language];
    }
    if language !in inputs && language !in acc {
      assert Get(acc, language) + Get(inputs, language) == map[];
    }
  }

  /** An empty accumulator takes the input as it is. */
  lemma DeepMergeIntoEmpty(inputs: Translations)
    ensures DeepMerge(map[], inputs) == inputs
  {
  }

  /** The languages of the result are those of every source together. */
  lemma {:induction false} CollectLanguages(sources: seq<Translations>)
    ensures forall language :: language in Collect(sources) <==>
      exists i :: 0 <= i < |sources| && language in sources[i]
  {
    if |sources| > 0 {
      var n := |sources| - 1;
      CollectLanguages(sources[..n]);
      DeepMergeLookup(Collect(sources[..n]), sources[n]);
      forall language ensures language in Collect(sources) <==> exists i :: 0 <= i < |sources| && language in sources[i] {
        if language in Collect(sources[..n]) {
          var i :| 0 <= i < n && language in sources[..n][i];
          assert language in sources[i];
        }
        if exists i :: 0 <= i < |sources| && language in sources[i] {
          var i :| 0 <= i < |sources| && language in sources[i];
          if i < n { assert language in sources[..n][i]; }
        }
      }
    }
  }

  /** A key takes the template of the last source that has it. */
  lemma {:induction false} CollectTakesLast(sources: seq<Translations>, language: string, key: string, j: nat)
    requires j < |sources| && Lookup(sources[j], language, key).Some?
    requires forall i :: j < i < |sources| ==> Lookup(sources[i], language, key).None?
    ensures Lookup(Collect(sources), language, key) == Lookup(sources[j], language, key)
  {
    var n := |sources| - 1;
    DeepMergeLookup(Collect(sources[..n]), sources[n]);
    if j < n {
      assert sources[..n][j] == sources[j];
      forall i | j < i < n ensures Lookup(sources[..n][i], language, key).None? {
        assert sources[..n][i] == sources[i];
      }
      CollectTakesLast(sources[..n], language, key, j);
    }
  }

  /** A key is missing from the result exactly when every source misses it. */
  lemma {:induction false} CollectMissing(sources: seq<Translations>, language: string, key: string)
    ensures Lookup(Collect(sources), language, key).None? <==>
      forall i :: 0 <= i < |sources| ==> Lookup(sources[i], language, key).None?
  {
    if |sources| > 0 {
      var n := |sources| - 1;
      DeepMergeLookup(Collect(sources[..n]), sources[n]);
      CollectMissing(sources[..n], language, key);
      assert forall i :: 0 <= i < n ==> sources[..n][i] == sources[i];
    }
  }

  /** The mutable accumulator map of the collector. */
  class Accumulator {
    var languages: Translations

    /** The supplier `HashMap::new`. */
    constructor ()
      ensures languages == map[]
    {
      languages := map[];
    }
  }

  /** The languages of `inputs` whose translations have already been merged. */
  function Restrict(inputs: Translations, done: set<string>): Translations {
    map language | language in inputs.Keys * done :: inputs[language]
  }

  lemma MergeOne(acc: Translations, inputs: Translations, done: set<string>, language: string)
    requires language in inputs && language !in done
    ensures DeepMerge(acc, Restrict(inputs, done + {language})) ==
      DeepMerge(acc, Restrict(inputs, done))[language :=
        (if language in DeepMerge(acc, Restrict(inputs, done)) then DeepMerge(acc, Restrict(inputs, done))[language]
         else map[]) + inputs[language]]
  {
    var before := DeepMerge(acc, Restrict(inputs, done));
    var after := DeepMerge(acc, Restrict(inputs, done + {language}));
    var expected := before[language := (if language in before then before[language] else map[]) + inputs[language]];
    assert language !in Restrict(inputs, done);
    forall l | l in after ensures l in expected && after[l] == expected[l] {
      if l != language {
        assert (l in Restrict(inputs, done + {language})) == (l in Restrict(inputs, done));
      }
    }
    assert after.Keys == expected.Keys;
  }

  /**
   * `merge`: each language of `inputs` gets its translations added to the accumulator's,
   * in place; the accumulator itself is returned.
   */
  method Merge(acc: Accumulator, inputs: Translations) returns (r: Accumulator)
    modifies acc
    ensures r == acc
    ensures acc.languages == DeepMerge(old(acc.languages), inputs)
  {
    var pending := inputs.Keys;
    while pending != {}
      invariant pending <= inputs.Keys
      invariant acc.languages == DeepMerge(old(acc.languages), Restrict(inputs, inputs.Keys - pending))
      decreases pending
    {
      var language :| language in pending;
      MergeOne(old(acc.languages), inputs, inputs.Keys - pending, language);
      // computeIfAbsent(language, HashMap::new).putAll(translation)
      var current := if language in acc.languages then acc.languages[language] else map[];
      acc.languages := acc.languages[language := current + inputs[language]];
      assert inputs.Keys - (pending - {language}) == (inputs.Keys - pending) + {language};
      pending := pending - {language};
    }
    assert Restrict(inputs, inputs.Keys) == inputs;
    r := acc;
  }

  /** `stream.collect(toCollect())` on a sequential stream: every source merged in order into a fresh map. */
  method ToCollect(sources: seq<Translations>) returns (r: Translations)
    ensures r == Collect(sources)
  {
    var acc := new Accumulator();
    for i := 0 to |sources|
      invariant acc.languages == Collect(sources[..i])
    {
      assert sources[..i + 1][..i] == sources[..i];
      var same := Merge(acc, sources[i]);
    }
    assert sources[..|sources|] == sources;
    r := acc.languages;
  }
}
