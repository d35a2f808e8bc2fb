/** simplemind/chains/reverse_text.py: the chain that reverses its input text. */
module ReverseText {
  import opened Wrappers
  import opened Python

  /** `s[::-1]`. */
  function Reverse(s: string): (r: string)
    ensures |r| == |s|
    ensures forall i :: 0 <= i < |s| ==> r[i] == s[|s| - 1 - i]
  {
    if s == [] then [] else Reverse(s[1..]) + [s[0]]
  }

  /** Reversing twice gives the text back. */
  lemma ReverseInvolution(s: string)
    ensures Reverse(Reverse(s)) == s
  {
    assert forall i :: 0 <= i < |s| ==> Reverse(Reverse(s))[i] == s[i];
  }

  /** ReverseTextChain.run: the reversed text, or TypeError for a non-str input. */
  function Run(input: Value): (r: Result<string, Error>)
    ensures r.Success? <==> input.PyStr?
    ensures r.Success? ==> r.value == Reverse(input.s)
    ensures r.Failure? ==> r.error == Error(TypeError, "Input must be a string")
  {
    if input.PyStr? then Success(Reverse(input.s)) else Failure(Error(TypeError, "Input must be a string"))
  }

  /** run("hello") is "olleh", and run("") is "". */
  lemma RunExamples()
    ensures Run(PyStr("hello")) == Success("olleh")
    ensures Run(PyStr("")) == Success("")
  {
    assert Reverse("hello") == "olleh" by {
      assert Reverse("o") == "o";
      assert Reverse("lo") == "ol";
      assert Reverse("llo") == "oll";
      assert Reverse("ello") == "olle";
    }
  }

  /** Running the chain on its own output gives the input back. */
  lemma RunTwice(s: string)
    ensures Run(PyStr(Run(PyStr(s)).value)) == Success(s)
  {
    ReverseInvolution(s);
  }
}
