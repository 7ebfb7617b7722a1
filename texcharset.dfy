/**
 * mathtex/texcharset.py: the command-to-character table the parser consults
 * for symbol commands such as `\alpha`.
 */
module TexCharset {
  import opened Wrappers

  /** `TexChar(cmd, char, unicode)`. */
  datatype TexChar = TexChar(command: string, character: char, unicode: int)

  /** `TexCharSet`: a dictionary from command name to entry that `add` writes into. */
  class TexCharSet {
    var charset: map<string, TexChar>

    constructor ()
      ensures charset == map[]
    {
      charset := map[];
    }

    /** `add` stores a fresh entry under `cmd`, replacing any earlier one. */
    method Add(cmd: string, c: char, unicode: int)
      modifies this
      ensures charset == old(charset)[cmd := TexChar(cmd, c, unicode)]
      ensures cmd in charset && charset[cmd] == TexChar(cmd, c, unicode)
      ensures forall k :: k != cmd ==> (k in charset <==> k in old(charset))
      ensures forall k :: k != cmd && k in charset ==> charset[k] == old(charset)[k]
    {
      charset := charset[cmd := TexChar(cmd, c, unicode)];
    }
  }

  /** The module body: a fresh `TexCharSet`, then one `add` per entry, in order. */
  method BuildTable(entries: seq<TexChar>) returns (cs: TexCharSet)
    ensures fresh(cs) && cs.charset == TableOf(entries)
  {
    cs := new TexCharSet();
    for i := 0 to |entries|
      invariant cs.charset == TableOf(entries[..i])
    {
      assert entries[..i + 1][..i] == entries[..i];
      cs.Add(entries[i].command, entries[i].character, entries[i].unicode);
    }
    assert entries[..|entries|] == entries;
  }

  /** The dictionary that a run of `add` calls leaves behind, one call per entry, in order. */
  function TableOf(entries: seq<TexChar>): map<string, TexChar>
  {
    if entries == [] then map[]
    else
      var e := entries[|entries| - 1];
      TableOf(entries[..|entries| - 1])[e.command := e]
  }

  /** The 24 `add` calls for Greek small letters (the table spells lambda `lamda`). */
  const SmallLetters: seq<TexChar> := [
      TexChar("alpha", 'α', 945),
      TexChar("beta", 'β', 946),
      TexChar("gamma", 'γ', 947),
      TexChar("delta", 'δ', 948),
      TexChar("epsilon", 'ε', 949),
      TexChar("zeta", 'ζ', 950),
      TexChar("eta", 'η', 951),
      TexChar("theta", 'θ', 952),
      TexChar("iota", 'ι', 953),
      TexChar("kappa", 'κ', 954),
      TexChar("lamda", 'λ', 955),
      TexChar("mu", 'μ', 956),
      TexChar("nu", 'ν', 957),
      TexChar("xi", 'ξ', 958),
      TexChar("omicron", 'ο', 959),
      TexChar("pi", 'π', 960),
      TexChar("rho", 'ρ', 961),
      TexChar("sigma", 'σ', 963),
      TexChar("tau", 'τ', 964),
      TexChar("upsilon", 'υ', 965),
      TexChar("phi", 'φ', 966),
      TexChar("chi", 'χ', 967),
      TexChar("psi", 'ψ', 968),
      TexChar("omega", 'ω', 969)
    ]

  /** The 24 `add` calls for Greek capital letters. */
  const CapitalLetters: seq<TexChar> := [
      TexChar("Alpha", 'Α', 913),
      TexChar("Beta", 'Β', 914),
      TexChar("Gamma", 'Γ', 915),
      TexChar("Delta", 'Δ', 916),
      TexChar("Epsilon", 'Ε', 917),
      TexChar("Zeta", 'Ζ', 918),
      TexChar("Eta", 'Η', 919),
      TexChar("Theta", 'Θ', 920),
      TexChar("Iota", 'Ι', 921),
      TexChar("Kappa", 'Κ', 922),
      TexChar("Lamda", 'Λ', 923),
      TexChar("Mu", 'Μ', 924),
      TexChar("Nu", 'Ν', 925),
      TexChar("Xi", 'Ξ', 926),
      TexChar("Omicron", 'Ο', 927),
      TexChar("Pi", 'Π', 928),
      TexChar("Rho", 'Ρ', 929),
      TexChar("Sigma", 'Σ', 931),
      TexChar("Tau", 'Τ', 932),
      TexChar("Upsilon", 'Υ', 933),
      TexChar("Phi", 'Φ', 934),
      TexChar("Chi", 'Χ', 935),
      TexChar("Psi", 'Ψ', 936),
      TexChar("Omega", 'Ω', 937)
    ]

  /** The 12 `add` calls for Greek letter variants. */
  const LetterVariants: seq<TexChar> := [
      TexChar("varsigma", 'ς', 962),
      TexChar("varbeta", 'ϐ', 976),
      TexChar("vartheta", 'ϑ', 977),
      TexChar("varphi", 'ϕ', 981),
      TexChar("varpi", 'ϖ', 982),
      TexChar("stigma", 'Ϛ', 986),
      TexChar("digamma", 'Ϝ', 988),
      TexChar("koppa", 'Ϟ', 990),
      TexChar("sampi", 'Ϡ', 992),
      TexChar("varkappa", 'ϰ', 1008),
      TexChar("varrho", 'ϱ', 1009),
      TexChar("lunatesigma", 'ϲ', 1010)
    ]

  /** `TEX_CHARSET` after the module body has run. */
  function TexCharsetTable(): map<string, TexChar>
  {
    TableOf(AllLetters)
  }

  /** The 60 entries in the order the module body adds them. */
  const AllLetters: seq<TexChar> := SmallLetters + CapitalLetters + LetterVariants

  /**
   * The lookup parser.py:113 calls as `get_char`: the entry's character when the
   * command is a key, none otherwise.
   */
  function GetChar(table: map<string, TexChar>, cmd: string): (r: Option<char>)
    ensures r.Some? <==> cmd in table
    ensures r.Some? ==> r.value == table[cmd].character
  {
    if cmd in table then Some(table[cmd].character) else None
  }

  predicate DistinctCommands(entries: seq<TexChar>)
  {
    forall i, j :: 0 <= i < j < |entries| ==> entries[i].command != entries[j].command
  }

  // ---------------------------------------------------------------------------
  // What a run of `add` calls leaves behind

  /** The keys are exactly the commands added. */
  lemma {:induction false} TableKeys(entries: seq<TexChar>)
    ensures forall k :: k in TableOf(entries) <==> exists i :: 0 <= i < |entries| && entries[i].command == k
  {
    if entries != [] {
      var init := entries[..|entries| - 1];
      var e := entries[|entries| - 1];
      TableKeys(init);
      forall k | k in TableOf(entries)
        ensures exists i :: 0 <= i < |entries| && entries[i].command == k
      {
        if k != e.command {
          assert k in TableOf(init);
          var i :| 0 <= i < |init| && init[i].command == k;
          assert entries[i].command == k;
        }
      }
      forall k | exists i :: 0 <= i < |entries| && entries[i].command == k
        ensures k in TableOf(entries)
      {
        var i :| 0 <= i < |entries| && entries[i].command == k;
        if i < |init| {
          assert init[i] == entries[i];
        }
      }
    }
  }

  /** With distinct commands, each entry is found under its own command. */
  lemma {:induction false} TableValues(entries: seq<TexChar>)
    requires DistinctCommands(entries)
    ensures forall i :: 0 <= i < |entries| ==>
      entries[i].command in TableOf(entries) && TableOf(entries)[entries[i].command] == entries[i]
  {
    if entries != [] {
      var init := entries[..|entries| - 1];
      var e := entries[|entries| - 1];
      assert DistinctCommands(init);
      TableValues(init);
      TableKeys(init);
      forall i | 0 <= i < |entries|
        ensures TableOf(entries)[entries[i].command] == entries[i]
      {
        if i < |init| {
          assert entries[i] == init[i];
          assert init[i].command != e.command;
        }
      }
    }
  }

  /** With distinct commands, every `add` creates a key. */
  lemma {:induction false} TableSize(entries: seq<TexChar>)
    requires DistinctCommands(entries)
    ensures |TableOf(entries)| == |entries|
  {
    if entries != [] {
      var init := entries[..|entries| - 1];
      var e := entries[|entries| - 1];
      assert DistinctCommands(init);
      TableSize(init);
      TableKeys(init);
      forall i | 0 <= i < |init|
        ensures init[i].command != e.command
      {
        assert init[i] == entries[i];
      }
    }
  }

  /** A run of `add` calls with distinct commands keeps every entry under its own command. */
  lemma TableOfEntries(entries: seq<TexChar>)
    requires DistinctCommands(entries)
    ensures forall k :: k in TableOf(entries) <==> exists i :: 0 <= i < |entries| && entries[i].command == k
    ensures forall i :: 0 <= i < |entries| ==>
      entries[i].command in TableOf(entries) && TableOf(entries)[entries[i].command] == entries[i]
    ensures |TableOf(entries)| == |entries|
  {
    TableKeys(entries);
    TableValues(entries);
    TableSize(entries);
  }

  lemma DistinctAppend(a: seq<TexChar>, b: seq<TexChar>)
    requires DistinctCommands(a) && DistinctCommands(b)
    requires forall i, j :: 0 <= i < |a| && 0 <= j < |b| ==> a[i].command != b[j].command
    ensures DistinctCommands(a + b)
  {
    forall i, j | 0 <= i < j < |a + b|
      ensures (a + b)[i].command != (a + b)[j].command
    {
      if j < |a| {
      } else if i < |a| {
        assert (a + b)[j] == b[j - |a|];
      } else {
        assert (a + b)[i] == b[i - |a|] && (a + b)[j] == b[j - |a|];
      }
    }
  }

  // ---------------------------------------------------------------------------
  // The static table

  /** The commands of each group, in the order of their `add` calls. */
  const SmallNames: seq<string> := ["alpha", "beta", "gamma", "delta", "epsilon", "zeta", "eta", "theta", "iota", "kappa", "lamda", "mu", "nu", "xi", "omicron", "pi", "rho", "sigma", "tau", "upsilon", "phi", "chi", "psi", "omega"]
  const CapitalNames: seq<string> := ["Alpha", "Beta", "Gamma", "Delta", "Epsilon", "Zeta", "Eta", "Theta", "Iota", "Kappa", "Lamda", "Mu", "Nu", "Xi", "Omicron", "Pi", "Rho", "Sigma", "Tau", "Upsilon", "Phi", "Chi", "Psi", "Omega"]
  const VariantNames: seq<string> := ["varsigma", "varbeta", "vartheta", "varphi", "varpi", "stigma", "digamma", "koppa", "sampi", "varkappa", "varrho", "lunatesigma"]

  predicate LowerInitial(k: string)
  {
    |k| > 0 && 'a' <= k[0] <= 'z'
  }

  predicate UpperInitial(k: string)
  {
    |k| > 0 && 'A' <= k[0] <= 'Z'
  }

  lemma SmallLettersNamed()
    ensures |SmallLetters| == 24 && forall i :: 0 <= i < 24 ==> SmallLetters[i].command == SmallNames[i]
  {
  }

  lemma CapitalLettersNamed()
    ensures |CapitalLetters| == 24 && forall i :: 0 <= i < 24 ==> CapitalLetters[i].command == CapitalNames[i]
  {
  }

  lemma LetterVariantsNamed()
    ensures |LetterVariants| == 12 && forall i :: 0 <= i < 12 ==> LetterVariants[i].command == VariantNames[i]
  {
  }

  lemma SmallNamesDistinct()
    ensures |SmallNames| == 24 && forall i, j :: 0 <= i < j < 24 ==> SmallNames[i] != SmallNames[j]
  {
  }

  lemma CapitalNamesDistinct()
    ensures |CapitalNames| == 24 && forall i, j :: 0 <= i < j < 24 ==> CapitalNames[i] != CapitalNames[j]
  {
  }

  lemma VariantNamesDistinct()
    ensures |VariantNames| == 12 && forall i, j :: 0 <= i < j < 12 ==> VariantNames[i] != VariantNames[j]
  {
  }

  lemma SmallVersusVariantNames()
    ensures forall i, j :: 0 <= i < 24 && 0 <= j < 12 ==> SmallNames[i] != VariantNames[j]
  {
  }

  lemma NameInitials()
    ensures forall i :: 0 <= i < 24 ==> LowerInitial(SmallNames[i])
    ensures forall i :: 0 <= i < 24 ==> UpperInitial(CapitalNames[i])
    ensures forall i :: 0 <= i < 12 ==> LowerInitial(VariantNames[i])
  {
  }

  lemma LambdaNotAName()
    ensures forall i :: 0 <= i < 24 ==> SmallNames[i] != "lambda"
    ensures forall i :: 0 <= i < 12 ==> VariantNames[i] != "lambda"
  {
  }

  lemma SmallLettersCodePoints()
    ensures forall i :: 0 <= i < |SmallLetters| ==> SmallLetters[i].character as int == SmallLetters[i].unicode
  {
  }

  lemma CapitalLettersCodePoints()
    ensures forall i :: 0 <= i < |CapitalLetters| ==> CapitalLetters[i].character as int == CapitalLetters[i].unicode
  {
  }

  lemma LetterVariantsCodePoints()
    ensures forall i :: 0 <= i < |LetterVariants| ==> LetterVariants[i].character as int == LetterVariants[i].unicode
  {
  }

  /** Where each group sits in the full run of `add` calls. */
  lemma AllLettersParts()
    ensures |AllLetters| == 60
    ensures forall i :: 0 <= i < 24 ==> AllLetters[i] == SmallLetters[i]
    ensures forall i :: 24 <= i < 48 ==> AllLetters[i] == CapitalLetters[i - 24]
    ensures forall i :: 48 <= i < 60 ==> AllLetters[i] == LetterVariants[i - 48]
  {
    GroupSizes();
  }

  lemma GroupSizes()
    ensures |SmallLetters| == 24 && |CapitalLetters| == 24 && |LetterVariants| == 12
  {
  }

  /** The commands of all 60 entries, group by group, and where they start. */
  lemma AllLettersNamed()
    ensures |AllLetters| == 60
    ensures forall i :: 0 <= i < 24 ==> AllLetters[i].command == SmallNames[i]
    ensures forall i :: 24 <= i < 48 ==> AllLetters[i].command == CapitalNames[i - 24]
    ensures forall i :: 48 <= i < 60 ==> AllLetters[i].command == VariantNames[i - 48]
  {
    AllLettersParts();
    SmallLettersNamed();
    CapitalLettersNamed();
    LetterVariantsNamed();
  }

  /** No command is added twice. */
  lemma AllLettersDistinct()
    ensures DistinctCommands(AllLetters)
  {
    AllLettersNamed();
    SmallNamesDistinct();
    CapitalNamesDistinct();
    VariantNamesDistinct();
    SmallVersusVariantNames();
    NameInitials();
    forall i, j | 0 <= i < j < 60
      ensures AllLetters[i].command != AllLetters[j].command
    {
      if j < 24 {
      } else if j < 48 {
        if i < 24 {
          assert LowerInitial(AllLetters[i].command) && UpperInitial(AllLetters[j].command);
        }
      } else if i < 24 {
      } else if i < 48 {
        assert UpperInitial(AllLetters[i].command) && LowerInitial(AllLetters[j].command);
      }
    }
  }

  /** The static table holds 60 distinct commands: 24 small, 24 capital and 12 variant letters. */
  lemma TexCharsetSize()
    ensures |TexCharsetTable()| == 60
    ensures |TexCharsetTable()| == |SmallLetters| + |CapitalLetters| + |LetterVariants|
  {
    AllLettersDistinct();
    AllLettersParts();
    TableSize(AllLetters);
  }

  /** Every entry sits under its own command and its character's code point is its `unicode` field. */
  lemma TexCharsetEntries()
    ensures forall k :: k in TexCharsetTable() ==> TexCharsetTable()[k].command == k
    ensures forall k :: k in TexCharsetTable() ==> TexCharsetTable()[k].character as int == TexCharsetTable()[k].unicode
  {
    AllLettersDistinct();
    AllLettersParts();
    SmallLettersCodePoints();
    CapitalLettersCodePoints();
    LetterVariantsCodePoints();
    TableKeys(AllLetters);
    TableValues(AllLetters);
    forall k | k in TexCharsetTable()
      ensures TexCharsetTable()[k].command == k
      ensures TexCharsetTable()[k].character as int == TexCharsetTable()[k].unicode
    {
      var i :| 0 <= i < |AllLetters| && AllLetters[i].command == k;
      assert TexCharsetTable()[k] == AllLetters[i];
    }
  }

  /** The entry of the `i`-th `add` call is found under its command. */
  lemma EntryLookup(i: nat)
    requires i < 60
    ensures |AllLetters| == 60 && GetChar(TexCharsetTable(), AllLetters[i].command) == Some(AllLetters[i].character)
  {
    AllLettersDistinct();
    AllLettersParts();
    TableKeys(AllLetters);
    TableValues(AllLetters);
  }

  /** `alpha`, `lamda` and `Omega` are looked up to their Greek letters. */
  lemma TexCharsetLookups()
    ensures GetChar(TexCharsetTable(), "alpha") == Some('α')
    ensures GetChar(TexCharsetTable(), "lamda") == Some('λ')
    ensures GetChar(TexCharsetTable(), "Omega") == Some('Ω')
  {
    AllLettersParts();
    EntryLookup(0);
    EntryLookup(10);
    EntryLookup(47);
  }

  /** `lambda` is not a key: the table spells the letter `lamda`, so `\lambda` is not a symbol command. */
  lemma LambdaIsNotAKey()
    ensures GetChar(TexCharsetTable(), "lambda") == None
  {
    AllLettersNamed();
    LambdaNotAName();
    NameInitials();
    TableKeys(AllLetters);
    forall i | 0 <= i < 60
      ensures AllLetters[i].command != "lambda"
    {
      if 24 <= i < 48 {
        assert UpperInitial(AllLetters[i].command);
      }
    }
  }
}
