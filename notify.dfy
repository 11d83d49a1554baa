/**
 * The property-change protocol shared by the profile model and the view
 * models: SetProperty compares the stored value with the new one using
 * the type's default equality, stores the new value, and raises one
 * PropertyChanged event carrying the property name only when they differ.
 */
module Notify {
  /** The PropertyChanged events one SetProperty(ref field, value, propertyName) call raises. */
  function Raised<T(==)>(current: T, value: T, propertyName: string): (events: seq<string>)
    ensures |events| <= 1
    ensures events == [] <==> current == value
    ensures forall e :: e in events ==> e == propertyName
  {
    if current == value then [] else [propertyName]
  }

  /** Assigning the value a property already holds is silent, so repeating an assignment raises nothing more. */
  lemma RepeatedAssignmentIsSilent<T>(current: T, value: T, propertyName: string)
    ensures Raised(value, value, propertyName) == []
    ensures |Raised(current, value, propertyName) + Raised(value, value, propertyName)| <= 1
  {
  }
}
