/** The property table of a reporter event (`EventProperties`): six
    attributes, each with a value of a fixed type, looked up by enum key or
    case-insensitively by name. The table is a map that the constructor fills
    with defaults and that the setters overwrite one key at a time. */
module Event {
  import Ascii
  import opened Optional

  /** The event attributes the table is keyed by (`EventAttribute`). */
  datatype EventAttribute = Text | Component | Success | Remarks | ExcMsg | ExcTrace

  /** The value types the table reports (`ValueType`). */
  datatype ValueType = StringType | BooleanType

  /** A stored value: the two sentinels of the container, a boolean or a
      string value. */
  datatype Value = NotSet | NotApplicable | BooleanValue(b: bool) | StringValue(s: string)


  /** The Java name of each attribute constant. */
  function AttributeName(a: EventAttribute): string
  {
    match a
    case Text => "TEXT"
    case Component => "COMPONENT"
    case Success => "SUCCESS"
    case Remarks => "REMARKS"
    case ExcMsg => "EXC_MSG"
    case ExcTrace => "EXC_TRACE"
  }

  /** `EventAttribute.valueOf(name)`: the constant with exactly that name. */
  function AttributeNamed(name: string): (r: Option<EventAttribute>)
    ensures r.Some? ==> AttributeName(r.value) == name
    ensures r.None? ==> forall a :: AttributeName(a) != name
  {
    if name == "TEXT" then Some(Text)
    else if name == "COMPONENT" then Some(Component)
    else if name == "SUCCESS" then Some(Success)
    else if name == "REMARKS" then Some(Remarks)
    else if name == "EXC_MSG" then Some(ExcMsg)
    else if name == "EXC_TRACE" then Some(ExcTrace)
    else None
  }

  /** `valueType(EventAttribute)`: every attribute holds a string except
      SUCCESS, which holds a boolean. */
  function AttributeType(a: EventAttribute): (t: ValueType)
    ensures t == BooleanType <==> a == Success
  {
    match a
    case Text => StringType
    case Component => StringType
    case Success => BooleanType
    case Remarks => StringType
    case ExcMsg => StringType
    case ExcTrace => StringType
  }

  /** `key(strKey)`: the attribute named by `strKey` in any letter case;
      `None` where `valueOf` throws. */
  function Key(strKey: string): (r: Option<EventAttribute>)
    ensures r.Some? <==> exists a :: AttributeName(a) == Ascii.Upper(strKey)
    ensures r.Some? ==> AttributeName(r.value) == Ascii.Upper(strKey)
  {
    AttributeNamed(Ascii.Upper(strKey))
  }

  /** `valueType(String)`: the type of the attribute the name selects; the
      lookup failure of `key` propagates as `None`. */
  function KeyType(strKey: string): (r: Option<ValueType>)
    ensures r.Some? <==> Key(strKey).Some?
    ensures r.Some? ==> r.value == AttributeType(Key(strKey).value)
  {
    match Key(strKey)
    case None => None
    case Some(a) => Some(AttributeType(a))
  }

  /** `valueEnumType(strKey)`: no attribute holds an enum value, so no name
      has an enum class. */
  function ValueEnumType(strKey: string): (r: Option<string>)
    ensures r == None
  {
    None
  }

  /** The type a stored value carries; the sentinels carry none. */
  function TypeOf(v: Value): Option<ValueType>
  {
    match v
    case NotSet => None
    case NotApplicable => None
    case BooleanValue(_) => Some(BooleanType)
    case StringValue(_) => Some(StringType)
  }

  /** A value fits an attribute when it is a sentinel or has the attribute's type. */
  predicate Fits(a: EventAttribute, v: Value)
  {
    TypeOf(v).None? || TypeOf(v) == Some(AttributeType(a))
  }

  /** The table a fresh `EventProperties` holds. */
  function Defaults(): map<EventAttribute, Value>
  {
    map[Text := NotSet,
        Component := NotSet,
        Success := BooleanValue(true),
        Remarks := NotApplicable,
        ExcMsg := NotApplicable,
        ExcTrace := NotApplicable]
  }

  class EventProperties {
    /** The contents of the underlying enum-keyed container. */
    var props: map<EventAttribute, Value>

    /** Every attribute has a value, and each value fits its attribute. */
    ghost predicate Valid()
      reads this
    {
      forall a :: a in props && Fits(a, props[a])
    }

    /** Builds the default table in a local map and adds it to the (empty)
        container. */
    constructor ()
      ensures Valid()
      ensures props == Defaults()
    {
      var m: map<EventAttribute, Value> := map[];
      m := m[Text := NotSet];
      m := m[Component := NotSet];
      m := m[Success := BooleanValue(true)];
      m := m[Remarks := NotApplicable];
      m := m[ExcMsg := NotApplicable];
      m := m[ExcTrace := NotApplicable];
      props := map[];
      props := props + m;
      DefaultsFit();
    }

    /** `setText`: stores `text` as a string value under TEXT. */
    method SetText(text: string)
      requires Valid()
      modifies this
      ensures Valid()
      ensures props == old(props)[Text := StringValue(text)]
      ensures forall a :: a != Text ==> props[a] == old(props)[a]
    {
      props := props[Text := StringValue(text)];
    }

    /** `setComponent`: stores `component` as a string value under COMPONENT. */
    method SetComponent(component: string)
      requires Valid()
      modifies this
      ensures Valid()
      ensures props == old(props)[Component := StringValue(component)]
      ensures forall a :: a != Component ==> props[a] == old(props)[a]
    {
      props := props[Component := StringValue(component)];
    }
  }

  // ---------------------------------------------------------------------
  // Properties of the table

  /** The defaults cover every attribute and each default fits its
      attribute: TEXT and COMPONENT are not set, SUCCESS is true and the
      remarks and exception fields are not applicable. */
  lemma DefaultsFit()
    ensures forall a :: a in Defaults() && Fits(a, Defaults()[a])
    ensures forall a :: Defaults()[a] == NotSet <==> a == Text || a == Component
    ensures forall a :: Defaults()[a] == NotApplicable <==> a == Remarks || a == ExcMsg || a == ExcTrace
    ensures Defaults()[Success] == BooleanValue(true)
  {
    forall a ensures a in Defaults() && Fits(a, Defaults()[a]) {
      match a
      case Text =>
      case Component =>
      case Success =>
      case Remarks =>
      case ExcMsg =>
      case ExcTrace =>
    }
  }

  /** Key lookup ignores letter case. */
  lemma KeyIgnoresCase(strKey: string)
    ensures Key(Ascii.Upper(strKey)) == Key(strKey)
  {
    Ascii.UpperIdempotent(strKey);
  }

  lemma UpperAttributeName(a: EventAttribute)
    ensures Ascii.Upper(AttributeName(a)) == AttributeName(a)
  {
    match a
    case Text => Ascii.UppersTo("TEXT", "TEXT");
    case Component => Ascii.UppersTo("COMPONENT", "COMPONENT");
    case Success => Ascii.UppersTo("SUCCESS", "SUCCESS");
    case Remarks => Ascii.UppersTo("REMARKS", "REMARKS");
    case ExcMsg => Ascii.UppersTo("EXC_MSG", "EXC_MSG");
    case ExcTrace => Ascii.UppersTo("EXC_TRACE", "EXC_TRACE");
  }

  lemma AttributeNamedName(a: EventAttribute)
    ensures AttributeNamed(AttributeName(a)) == Some(a)
  {
  }

  /** Each attribute's own name selects it. */
  lemma KeyOfName(a: EventAttribute)
    ensures Key(AttributeName(a)) == Some(a)
  {
    UpperAttributeName(a);
    AttributeNamedName(a);
  }

  /** The name-keyed type table gives BOOLEAN exactly for the names of
      SUCCESS, whatever their case. */
  lemma KeyTypeBoolean(strKey: string)
    ensures KeyType(strKey) == Some(BooleanType) <==> Ascii.Upper(strKey) == "SUCCESS"
  {
  }

}
