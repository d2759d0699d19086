/** The creation options of a keystore (`Options`) and the functional setters
    that configure them (`WithID`, `WithController`, ...).

    A Go `Option` is a closure that writes one field of an `*Options`. Here an
    option is a value of the datatype `Option`, and `Apply` is the write it
    performs, returning the updated record instead of mutating it. */
module Keystore {
  import Wrappers

  /** The key-management library's key type, a named string. */
  type KeyType = string

  /** A point in time; its structure plays no part in the options logic. */
  datatype Instant = Instant(nanos: int)

  datatype Options = Options(
    id: string,
    controller: string,
    delegateKeyType: KeyType,
    recipientKeyType: KeyType,
    macKeyType: KeyType,
    operationalVaultID: string,
    createdAt: Wrappers.Option<Instant>)   // a *time.Time: None is nil

  /** The seven configurable fields, and a uniform view of their contents. */
  datatype Field =
    | IDField
    | ControllerField
    | DelegateKeyTypeField
    | RecipientKeyTypeField
    | MACKeyTypeField
    | OperationalVaultIDField
    | CreatedAtField

  datatype FieldValue = Text(text: string) | Stamp(stamp: Wrappers.Option<Instant>)

  function Get(o: Options, f: Field): FieldValue {
    match f
    case IDField => Text(o.id)
    case ControllerField => Text(o.controller)
    case DelegateKeyTypeField => Text(o.delegateKeyType)
    case RecipientKeyTypeField => Text(o.recipientKeyType)
    case MACKeyTypeField => Text(o.macKeyType)
    case OperationalVaultIDField => Text(o.operationalVaultID)
    case CreatedAtField => Stamp(o.createdAt)
  }

  /** Two option records with the same contents in every field are equal. */
  lemma Extensionality(x: Options, y: Options)
    requires forall f :: Get(x, f) == Get(y, f)
    ensures x == y
  {
    assert Get(x, IDField) == Get(y, IDField);
    assert Get(x, ControllerField) == Get(y, ControllerField);
    assert Get(x, DelegateKeyTypeField) == Get(y, DelegateKeyTypeField);
    assert Get(x, RecipientKeyTypeField) == Get(y, RecipientKeyTypeField);
    assert Get(x, MACKeyTypeField) == Get(y, MACKeyTypeField);
    assert Get(x, OperationalVaultIDField) == Get(y, OperationalVaultIDField);
    assert Get(x, CreatedAtField) == Get(y, CreatedAtField);
  }

  /** One functional option, named after the Go constructor that builds it.
      This is the package's own `Option`; the nil-or-value type is always
      written `Wrappers.Option` in this module. */
  datatype Option =
    | WithID(id: string)
    | WithController(controller: string)
    | WithDelegateKeyType(delegateKeyType: KeyType)
    | WithRecipientKeyType(recipientKeyType: KeyType)
    | WithMACKeyType(macKeyType: KeyType)
    | WithOperationalVaultID(operationalVaultID: string)
    | WithCreatedAt(createdAt: Wrappers.Option<Instant>)

  /** The field an option is documented to set. */
  function Target(opt: Option): Field {
    match opt
    case WithID(_) => IDField
    case WithController(_) => ControllerField
    case WithDelegateKeyType(_) => DelegateKeyTypeField
    case WithRecipientKeyType(_) => RecipientKeyTypeField
    case WithMACKeyType(_) => MACKeyTypeField
    case WithOperationalVaultID(_) => OperationalVaultIDField
    case WithCreatedAt(_) => CreatedAtField
  }

  /** The value an option carries, in the uniform field view. */
  function Payload(opt: Option): FieldValue {
    match opt
    case WithID(v) => Text(v)
    case WithController(v) => Text(v)
    case WithDelegateKeyType(v) => Text(v)
    case WithRecipientKeyType(v) => Text(v)
    case WithMACKeyType(v) => Text(v)
    case WithOperationalVaultID(v) => Text(v)
    case WithCreatedAt(v) => Stamp(v)
  }

  /** Running the option's closure on `o`: its target field now holds its
      value, and every other field is as it was. */
  function Apply(opt: Option, o: Options): (r: Options)
    ensures Get(r, Target(opt)) == Payload(opt)
    ensures forall f :: f != Target(opt) ==> Get(r, f) == Get(o, f)
  {
    match opt
    case WithID(v) => o.(id := v)
    case WithController(v) => o.(controller := v)
    case WithDelegateKeyType(v) => o.(delegateKeyType := v)
    case WithRecipientKeyType(v) => o.(recipientKeyType := v)
    case WithMACKeyType(v) => o.(macKeyType := v)
    case WithOperationalVaultID(v) => o.(operationalVaultID := v)
    case WithCreatedAt(v) => o.(createdAt := v)
  }

  /** Applying an option twice has the effect of applying it once. */
  lemma ApplyIdempotent(opt: Option, o: Options)
    ensures Apply(opt, Apply(opt, o)) == Apply(opt, o)
  {
  }

  /** Options that set different fields can be given in either order. */
  lemma ApplyCommutes(a: Option, b: Option, o: Options)
    requires Target(a) != Target(b)
    ensures Apply(a, Apply(b, o)) == Apply(b, Apply(a, o))
  {
  }

  /** Of two options on the same field, the later one wins. */
  lemma ApplyLastWins(a: Option, b: Option, o: Options)
    requires Target(a) == Target(b)
    ensures Apply(b, Apply(a, o)) == Apply(b, o)
  {
  }

  /** Running a list of options in the order given, as a caller does with a
      variadic `...Option` argument. */
  function ApplyAll(opts: seq<Option>, o: Options): Options
    decreases |opts|
  {
    if |opts| == 0 then o else Apply(opts[|opts| - 1], ApplyAll(opts[..|opts| - 1], o))
  }

  /** The position of the last option in `opts` that targets `f`, or -1 when
      none does. */
  function LastIndex(opts: seq<Option>, f: Field): (i: int)
    ensures -1 <= i < |opts|
    ensures i >= 0 ==> Target(opts[i]) == f
    ensures forall k :: i < k < |opts| ==> Target(opts[k]) != f
    decreases |opts|
  {
    if |opts| == 0 then -1
    else if Target(opts[|opts| - 1]) == f then |opts| - 1
    else LastIndex(opts[..|opts| - 1], f)
  }

  /** After a list of options, a field holds the value of the last option in
      the list that targets it, or its initial value when no option does. */
  lemma {:induction false} ApplyAllLastWriteWins(opts: seq<Option>, o: Options, f: Field)
    ensures Get(ApplyAll(opts, o), f) ==
            (var i := LastIndex(opts, f); if i < 0 then Get(o, f) else Payload(opts[i]))
    decreases |opts|
  {
    if |opts| > 0 {
      var n := |opts| - 1;
      if Target(opts[n]) != f {
        var init := opts[..n];
        ApplyAllLastWriteWins(init, o, f);
        var i := LastIndex(init, f);
        assert i >= 0 ==> init[i] == opts[i];
      }
    }
  }
}
