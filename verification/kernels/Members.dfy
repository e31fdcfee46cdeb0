/** Duplicate members at any depth of a JSON value, as its tokens are read. */
module DuplicateMembers {

  const MAX_DEPTH: nat := 64

  datatype Json = Scalar | Object(members: seq<Member>) | Array(elements: seq<Json>)

  datatype Member = Member(name: string, value: Json)

  datatype Token = ScalarToken | NameToken(name: string) | ObjectOpen | ObjectClose | ArrayOpen | ArrayClose

  // How a shape folds member names, and the shapes of members and elements.
  datatype Folding<!S(!new)> = Folding(name: (S, string) -> string, member: (S, string) -> S, element: S -> S)

  function Tokens(v: Json): seq<Token> {
    match v
    case Scalar => [ScalarToken]
    case Object(members) => [ObjectOpen] + MemberTokens(members) + [ObjectClose]
    case Array(elements) => [ArrayOpen] + ElementTokens(elements) + [ArrayClose]
  }

  function MemberTokens(members: seq<Member>): seq<Token> {
    if members == [] then [] else [NameToken(members[0].name)] + Tokens(members[0].value) + MemberTokens(members[1..])
  }

  function ElementTokens(elements: seq<Json>): seq<Token> {
    if elements == [] then [] else Tokens(elements[0]) + ElementTokens(elements[1..])
  }

  predicate NamesApart<S(!new)>(f: Folding<S>, shape: S, members: seq<Member>) {
    forall i, j :: 0 <= i < j < |members| ==> f.name(shape, members[i].name) != f.name(shape, members[j].name)
  }

  /** No object in the value names a member twice, and nothing is nested too deeply. */
  predicate Acceptable<S(!new)>(f: Folding<S>, shape: S, v: Json, depth: nat) {
    && depth <= MAX_DEPTH
    && match v
       case Scalar => true
       case Object(members) =>
         && NamesApart(f, shape, members)
         && forall i :: 0 <= i < |members| ==> Acceptable(f, f.member(shape, members[i].name), members[i].value, depth + 1)
       case Array(elements) =>
         forall i :: 0 <= i < |elements| ==> Acceptable(f, f.element(shape), elements[i], depth + 1)
  }

  lemma FirstToken(v: Json)
    ensures Tokens(v) != []
    ensures v.Scalar? <==> Tokens(v)[0] == ScalarToken
    ensures v.Object? <==> Tokens(v)[0] == ObjectOpen
    ensures v.Array? <==> Tokens(v)[0] == ArrayOpen
  {
  }

  // The token stream: what is left of it after `at` tokens.
  class Decoder {
    const tokens: seq<Token>
    var at: nat

    constructor (tokens: seq<Token>)
      ensures this.tokens == tokens && at == 0
    {
      this.tokens := tokens;
      at := 0;
    }

    ghost function Rest(): seq<Token>
      reads this
      requires at <= |tokens|
    {
      tokens[at..]
    }

    method Next() returns (t: Token)
      requires at < |tokens|
      modifies this
      ensures at == old(at) + 1 && t == tokens[old(at)] && at <= |tokens| && tokens[old(at)..] == [t] + Rest()
    {
      t := tokens[at];
      at := at + 1;
    }
  }

  /** One value: consumed whole when acceptable, and refused otherwise. */
  method CheckValue<S(!new)>(d: Decoder, f: Folding<S>, shape: S, depth: nat, ghost v: Json, ghost rest: seq<Token>) returns (ok: bool)
    requires d.at <= |d.tokens| && d.Rest() == Tokens(v) + rest
    modifies d
    ensures ok <==> Acceptable(f, shape, v, depth)
    ensures d.at <= |d.tokens| && (ok ==> d.Rest() == rest)
    decreases v, 1, 0
  {
    if depth > MAX_DEPTH {
      return false;
    }
    FirstToken(v);
    var t := d.Next();
    match t {
      case ObjectOpen =>
        ok := CheckMembers(d, f, shape, depth, v, rest);
      case ArrayOpen =>
        ok := CheckElements(d, f, shape, depth, v, rest);
      case _ => return true;
    }
  }

  /** What is ahead in an object: its members, its end, and what follows it. */
  ghost function MembersAhead(members: seq<Member>, rest: seq<Token>): seq<Token> {
    MemberTokens(members) + [ObjectClose] + rest
  }

  ghost function ElementsAhead(elements: seq<Json>, rest: seq<Token>): seq<Token> {
    ElementTokens(elements) + [ArrayClose] + rest
  }

  lemma MembersStep(members: seq<Member>, n: nat, rest: seq<Token>)
    requires n <= |members|
    ensures var ahead := MembersAhead(members[n..], rest);
            if n == |members| then ahead == [ObjectClose] + rest
            else && ahead == [NameToken(members[n].name)] + (Tokens(members[n].value) + MembersAhead(members[n + 1..], rest))
                 && ahead[0] != ObjectClose
  {
    if n < |members| {
      assert members[n..][1..] == members[n + 1..];
    }
  }

  lemma ElementsStep(elements: seq<Json>, n: nat, rest: seq<Token>)
    requires n <= |elements|
    ensures var ahead := ElementsAhead(elements[n..], rest);
            if n == |elements| then ahead == [ArrayClose] + rest
            else ahead == Tokens(elements[n]) + ElementsAhead(elements[n + 1..], rest) && ahead != [] && ahead[0] != ArrayClose
  {
    if n < |elements| {
      FirstToken(elements[n]);
      assert elements[n..][1..] == elements[n + 1..];
    }
  }

  lemma NextIs(d: Decoder, ahead: seq<Token>)
    requires d.at <= |d.tokens| && d.Rest() == ahead && ahead != []
    ensures d.at < |d.tokens| && d.tokens[d.at] == ahead[0]
  {
  }

  ghost predicate MembersChecked<S(!new)>(f: Folding<S>, shape: S, members: seq<Member>, n: nat, depth: nat)
    requires n <= |members|
  {
    && (forall i, j :: 0 <= i < j < n ==> f.name(shape, members[i].name) != f.name(shape, members[j].name))
    && forall i :: 0 <= i < n ==> Acceptable(f, f.member(shape, members[i].name), members[i].value, depth + 1)
  }

  ghost function NamesSeen<S(!new)>(f: Folding<S>, shape: S, members: seq<Member>, n: nat): set<string>
    requires n <= |members|
  {
    set i | 0 <= i < n :: f.name(shape, members[i].name)
  }

  lemma NoneSeen<S(!new)>(f: Folding<S>, shape: S, members: seq<Member>, depth: nat)
    ensures NamesSeen(f, shape, members, 0) == {} && MembersChecked(f, shape, members, 0, depth)
  {
  }

  /** One more member: its name is new and its value acceptable, or the object is refused. */
  lemma CheckedNext<S(!new)>(f: Folding<S>, shape: S, members: seq<Member>, n: nat, depth: nat)
    requires n < |members| && MembersChecked(f, shape, members, n, depth)
    ensures var name, value := f.name(shape, members[n].name), members[n].value;
            var good := name !in NamesSeen(f, shape, members, n) && Acceptable(f, f.member(shape, members[n].name), value, depth + 1);
            && NamesSeen(f, shape, members, n + 1) == NamesSeen(f, shape, members, n) + {name}
            && (good ==> MembersChecked(f, shape, members, n + 1, depth))
            && (!good ==> !MembersChecked(f, shape, members, |members|, depth))
  {
    hide Acceptable;
  }

  lemma MembersMeaning<S(!new)>(f: Folding<S>, shape: S, v: Json, depth: nat)
    requires v.Object? && depth <= MAX_DEPTH
    ensures Acceptable(f, shape, v, depth) <==> MembersChecked(f, shape, v.members, |v.members|, depth)
  {
  }

  /** The next member: its name is new, and its value acceptable. */
  method CheckMember<S(!new)>(d: Decoder, f: Folding<S>, shape: S, depth: nat, ghost v: Json, ghost n: nat, seen: set<string>,
                              ghost rest: seq<Token>) returns (ok: bool, name: string)
    requires v.Object? && n < |v.members| && depth <= MAX_DEPTH
    requires d.at < |d.tokens| && d.Rest() == MembersAhead(v.members[n..], rest)
    requires seen == NamesSeen(f, shape, v.members, n)
    modifies d
    ensures ok <==> f.name(shape, v.members[n].name) !in NamesSeen(f, shape, v.members, n)
                    && Acceptable(f, f.member(shape, v.members[n].name), v.members[n].value, depth + 1)
    ensures ok ==> name == f.name(shape, v.members[n].name)
    ensures d.at <= |d.tokens| && (ok ==> d.Rest() == MembersAhead(v.members[n + 1..], rest))
    decreases v, 0, 0
  {
    hide MembersAhead, Tokens, Acceptable, NamesSeen;
    MembersStep(v.members, n, rest);
    var t := d.Next();
    name := f.name(shape, t.name);
    if name in seen {
      return false, name;
    }
    ok := CheckValue(d, f, f.member(shape, t.name), depth + 1, v.members[n].value, MembersAhead(v.members[n + 1..], rest));
  }

  method CheckMembers<S(!new)>(d: Decoder, f: Folding<S>, shape: S, depth: nat, ghost v: Json, ghost rest: seq<Token>) returns (ok: bool)
    requires v.Object? && depth <= MAX_DEPTH
    requires d.at <= |d.tokens| && d.Rest() == MembersAhead(v.members, rest)
    modifies d
    ensures ok <==> Acceptable(f, shape, v, depth)
    ensures d.at <= |d.tokens| && (ok ==> d.Rest() == rest)
    decreases v, 0, 1
  {
    hide MembersAhead, Tokens, Acceptable, MembersChecked, NamesSeen;
    MembersMeaning(f, shape, v, depth);
    NoneSeen(f, shape, v.members, depth);
    var seen: set<string> := {};
    ghost var n := 0;
    assert v.members[0..] == v.members;
    MembersStep(v.members, 0, rest);
    NextIs(d, MembersAhead(v.members[n..], rest));
    while d.tokens[d.at] != ObjectClose
      invariant n <= |v.members| && d.at < |d.tokens| && d.Rest() == MembersAhead(v.members[n..], rest)
      invariant d.tokens[d.at] == MembersAhead(v.members[n..], rest)[0] && MembersAhead(v.members[n..], rest) != []
      invariant seen == NamesSeen(f, shape, v.members, n)
      invariant MembersChecked(f, shape, v.members, n, depth)
      decreases |v.members| - n
    {
      MembersStep(v.members, n, rest);
      CheckedNext(f, shape, v.members, n, depth);
      var good, name := CheckMember(d, f, shape, depth, v, n, seen, rest);
      if !good {
        return false;
      }
      seen := seen + {name};
      n := n + 1;
      MembersStep(v.members, n, rest);
      NextIs(d, MembersAhead(v.members[n..], rest));
    }
    MembersStep(v.members, n, rest);
    var _ := d.Next();
    return true;
  }

  method CheckElements<S(!new)>(d: Decoder, f: Folding<S>, shape: S, depth: nat, ghost v: Json, ghost rest: seq<Token>) returns (ok: bool)
    requires v.Array? && depth <= MAX_DEPTH
    requires d.at <= |d.tokens| && d.Rest() == ElementsAhead(v.elements, rest)
    modifies d
    ensures ok <==> Acceptable(f, shape, v, depth)
    ensures d.at <= |d.tokens| && (ok ==> d.Rest() == rest)
    decreases v, 0, 0
  {
    hide ElementsAhead, Tokens;
    ghost var n := 0;
    assert v.elements[0..] == v.elements;
    ElementsStep(v.elements, 0, rest);
    NextIs(d, ElementsAhead(v.elements[n..], rest));
    while d.tokens[d.at] != ArrayClose
      invariant n <= |v.elements| && d.at < |d.tokens| && d.Rest() == ElementsAhead(v.elements[n..], rest)
      invariant d.tokens[d.at] == ElementsAhead(v.elements[n..], rest)[0] && ElementsAhead(v.elements[n..], rest) != []
      invariant forall i :: 0 <= i < n ==> Acceptable(f, f.element(shape), v.elements[i], depth + 1)
      decreases |v.elements| - n
    {
      ElementsStep(v.elements, n, rest);
      var good := CheckValue(d, f, f.element(shape), depth + 1, v.elements[n], ElementsAhead(v.elements[n + 1..], rest));
      if !good {
        return false;
      }
      n := n + 1;
      ElementsStep(v.elements, n, rest);
      NextIs(d, ElementsAhead(v.elements[n..], rest));
    }
    ElementsStep(v.elements, n, rest);
    var _ := d.Next();
    return true;
  }
}
