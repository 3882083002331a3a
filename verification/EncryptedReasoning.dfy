/** core/encryptedreasoning.go, the typed path: dropping ciphertext the upstream refuses to replay. */
module EncryptedReasoning {
  import opened Options

  datatype Reasoning = Reasoning(id: string, summary: seq<string>, ciphertext: Option<string>)

  datatype Content = Content(blocks: seq<string>, text: Option<string>)

  /** An input item; `rest` stands for every field the rewrite never looks at. */
  datatype Item = Item(rest: string, reasoning: Option<Reasoning>, content: Option<Content>)

  predicate IsEncrypted(m: Item) { m.reasoning.Some? && m.reasoning.value.ciphertext.Some? }

  function Decrypted(m: Item): Item {
    if IsEncrypted(m) then m.(reasoning := Some(m.reasoning.value.(ciphertext := None))) else m
  }

  /** Nothing left to say: no summary and no content. */
  predicate IsBare(m: Item) {
    && m.reasoning.Some? && m.reasoning.value.summary == []
    && (m.content.None? || (m.content.value.blocks == [] && m.content.value.text.None?))
  }

  predicate IsDropped(m: Item) { IsEncrypted(m) && IsBare(m) }

  predicate HasCiphertext(input: seq<Item>) { exists i :: 0 <= i < |input| && IsEncrypted(input[i]) }

  /** What remains of the input. */
  function Stripped(input: seq<Item>): seq<Item> {
    if input == [] then []
    else
      var n := |input| - 1;
      Stripped(input[..n]) + if IsDropped(input[n]) then [] else [Decrypted(input[n])]
  }

  /** Reports whether anything changed; when nothing did, the input is handed back as it was. */
  method Strip(input: seq<Item>) returns (changed: bool, output: seq<Item>)
    ensures changed <==> HasCiphertext(input)
    ensures output == Stripped(input)
  {
    output := [];
    changed := false;
    for i := 0 to |input|
      invariant output == Stripped(input[..i])
      invariant changed <==> HasCiphertext(input[..i])
    {
      var m := input[i];
      assert input[..i + 1][..i] == input[..i];
      assert forall j :: 0 <= j < i ==> input[..i + 1][j] == input[..i][j];
      if m.reasoning.None? || m.reasoning.value.ciphertext.None? {
        output := output + [m];
      } else {
        changed := true;
        m := m.(reasoning := Some(m.reasoning.value.(ciphertext := None)));
        if !(m.reasoning.value.summary == [] && (m.content.None? || (m.content.value.blocks == [] && m.content.value.text.None?))) {
          output := output + [m];
        }
        assert IsEncrypted(input[..i + 1][i]);
      }
    }
    assert input[..|input|] == input;
    if !changed {
      NothingToStrip(input);
      output := input;
    }
  }

  /** Without ciphertext the rewrite is the identity. */
  lemma {:induction false} NothingToStrip(input: seq<Item>)
    requires !HasCiphertext(input)
    ensures Stripped(input) == input
  {
    if input != [] {
      var n := |input| - 1;
      assert !IsEncrypted(input[n]);
      assert !HasCiphertext(input[..n]);
      NothingToStrip(input[..n]);
      assert input == input[..n] + [input[n]];
    }
  }

  /** No ciphertext survives, so a second strip changes nothing. */
  lemma {:induction false} StripsAll(input: seq<Item>)
    ensures !HasCiphertext(Stripped(input))
    ensures Stripped(Stripped(input)) == Stripped(input)
  {
    NoneLeft(input);
    NothingToStrip(Stripped(input));
  }

  lemma {:induction false} NoneLeft(input: seq<Item>)
    ensures !HasCiphertext(Stripped(input))
  {
    if input != [] {
      NoneLeft(input[..|input| - 1]);
    }
  }

  /** `kept` names, in order, the input positions the output comes from; exactly the bare encrypted items are missing. */
  ghost predicate KeptFrom(kept: seq<nat>, input: seq<Item>, output: seq<Item>) {
    && |kept| == |output|
    && (forall i :: 0 <= i < |kept| ==> kept[i] < |input| && output[i] == Decrypted(input[kept[i]]))
    && (forall i, j :: 0 <= i < j < |kept| ==> kept[i] < kept[j])
    && (forall k: nat :: k < |input| ==> (k in kept <==> !IsDropped(input[k])))
  }

  lemma KeepMore(kept: seq<nat>, input: seq<Item>, output: seq<Item>, m: Item)
    requires KeptFrom(kept, input, output)
    ensures IsDropped(m) ==> KeptFrom(kept, input + [m], output)
    ensures !IsDropped(m) ==> KeptFrom(kept + [|input|], input + [m], output + [Decrypted(m)])
  {
    hide IsDropped, Decrypted;
    var more := kept + [|input|];
    assert forall k: nat :: k in more <==> k in kept || k == |input|;
    assert |input| !in kept;
  }

  /** Order and every other field are preserved; an item disappears only if it was encrypted and bare. */
  lemma {:induction false} StripKeepsTheRest(input: seq<Item>)
    ensures exists kept: seq<nat> :: KeptFrom(kept, input, Stripped(input))
  {
    hide KeptFrom, IsDropped, Decrypted;
    if input == [] {
      assert KeptFrom([], input, Stripped(input)) by { NothingKept(); }
    } else {
      var n := |input| - 1;
      StripKeepsTheRest(input[..n]);
      var kept: seq<nat> :| KeptFrom(kept, input[..n], Stripped(input[..n]));
      KeepMore(kept, input[..n], Stripped(input[..n]), input[n]);
      assert input == input[..n] + [input[n]];
      assert Stripped(input[..n]) + [] == Stripped(input[..n]);
      assert KeptFrom(if IsDropped(input[n]) then kept else kept + [n], input, Stripped(input));
    }
  }

  lemma NothingKept()
    ensures KeptFrom([], [], [])
  {
  }
}
