/**
 * mlgame/utils/enum.py and essential/utils/enum.py: `StringEnum`, an enum
 * whose members compare equal to their own string value. A member is
 * identified by its enum class and its name; members are singletons, so
 * `Enum` equality between members is identity.
 *
 * Python evaluates `a == b` by calling `a.__eq__(b)`; when that returns
 * NotImplemented it tries `b.__eq__(a)`, and when that too returns
 * NotImplemented it falls back to identity. `super().__eq__` of two members
 * is `object.__eq__`: True for the same member, NotImplemented otherwise.
 */
module StringEnums {
  /** An operand of a comparison: a member of some StringEnum class, a str, or any other object. */
  datatype Operand =
    | Member(enumClass: string, name: string, value: string)
    | Str(s: string)
    | Other(id: int)

  /** What a `__eq__` call returns. */
  datatype EqAnswer = Answer(b: bool) | NotImplemented

  /** `not x` for what `__eq__` returned: NotImplemented is truthy. */
  predicate Not(x: EqAnswer) {
    x.Answer? && !x.b
  }

  /** `auto()` in a StringEnum: `_generate_next_value_` gives the member its own name as value. */
  function AutoMember(enumClass: string, name: string): (m: Operand)
    ensures m.Member? && m.enumClass == enumClass && m.name == name && m.value == name
  {
    Member(enumClass, name, name)
  }

  /** `StringEnum.__eq__(self, other)`. */
  function DunderEq(self: Operand, other: Operand): (r: EqAnswer)
    requires self.Member?
    ensures other.Str? ==> r == Answer(self.value == other.s)
    ensures other.Other? ==> r == Answer(false)
    ensures other.Member? ==> (r == Answer(true) <==> other == self)
    ensures other.Member? && other != self ==> r == NotImplemented
  {
    match other
    case Member(_, _, _) => if other == self then Answer(true) else NotImplemented
    case Str(s) => Answer(self.value == s)
    case Other(_) => Answer(false)
  }

  /** `str.__eq__` and the `__eq__` of any other object against a StringEnum member. */
  function ForeignEq(self: Operand, other: Operand): EqAnswer
    requires !self.Member?
  {
    if self == other then Answer(true) else NotImplemented
  }

  function EqCall(a: Operand, b: Operand): EqAnswer {
    if a.Member? then DunderEq(a, b) else ForeignEq(a, b)
  }

  /** The `==` operator: `a.__eq__(b)`, then the reflected `b.__eq__(a)`, then identity. */
  predicate Equals(a: Operand, b: Operand) {
    var first := EqCall(a, b);
    if first.Answer? then first.b
    else
      var second := EqCall(b, a);
      if second.Answer? then second.b else a == b
  }

  /** A member equals a str, on either side, exactly when its value is that str. */
  lemma EqualsStr(m: Operand, s: string)
    requires m.Member?
    ensures Equals(m, Str(s)) <==> m.value == s
    ensures Equals(Str(s), m) <==> m.value == s
  {
  }

  /** Two members are equal exactly when they are the same member: the `Enum` equality. */
  lemma EqualsMembers(m1: Operand, m2: Operand)
    requires m1.Member? && m2.Member?
    ensures Equals(m1, m2) <==> m1 == m2
  {
  }

  /** A member never equals an object that is neither a member nor a str. */
  lemma EqualsOther(m: Operand, id: int)
    requires m.Member?
    ensures !Equals(m, Other(id)) && !Equals(Other(id), m)
  {
  }

  /** `StringEnum.__ne__` as written: `not self.__eq__(other)`, which reads NotImplemented as true. */
  predicate NotEqualsAsWritten(self: Operand, other: Operand)
    requires self.Member?
  {
    Not(DunderEq(self, other))
  }

  /** Two different members are not equal, and yet `!=` between them is False too. */
  lemma NotEqualsAsWrittenDistinctMembers(m1: Operand, m2: Operand)
    requires m1.Member? && m2.Member? && m1 != m2
    ensures !Equals(m1, m2) && !NotEqualsAsWritten(m1, m2)
  {
  }

  /** The evidently intended `__ne__`: the negation of `==`. */
  predicate NotEquals(self: Operand, other: Operand)
    requires self.Member?
  {
    !Equals(self, other)
  }

  /** With the intended `!=`, two members are unequal exactly when they are different members. */
  lemma NotEqualsMembers(m1: Operand, m2: Operand)
    requires m1.Member? && m2.Member?
    ensures NotEquals(m1, m2) <==> m1 != m2
  {
    EqualsMembers(m1, m2);
  }

  /** The intended `!=` agrees with the written one everywhere except between two different members. */
  lemma NotEqualsAgreement(self: Operand, other: Operand)
    requires self.Member?
    ensures !(other.Member? && other != self) ==> (NotEqualsAsWritten(self, other) <==> NotEquals(self, other))
  {
  }
}
