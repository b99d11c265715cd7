/**
  The form-values hook: one `values` slot, a string-to-string map, that a
  change handler updates one key at a time and a reset replaces with the
  initial map. The hook's state slot becomes a field; a change event becomes
  the (name, value) pair it carries.
 */
module FormFields {

  class FormStore {
    /** The map the hook was created with. */
    const initialValues: map<string, string>
    /** The current form values. */
    var values: map<string, string>

    /** Mounting the hook: the values start as the initial map. */
    constructor (initialValues: map<string, string>)
      ensures this.initialValues == initialValues
      ensures values == initialValues
    {
      this.initialValues := initialValues;
      values := initialValues;
    }

    /**
      `handleChange`: `values[name]` becomes `value`; every other key keeps its
      value, and a name not yet present is added.
     */
    method HandleChange(name: string, value: string)
      modifies this`values
      ensures values == old(values)[name := value]
      ensures values.Keys == old(values).Keys + {name}
      ensures forall k :: k in old(values) && k != name ==> values[k] == old(values)[k]
    {
      values := values[name := value];
    }

    /** `resetFields`: the values become the initial map again. */
    method ResetFields()
      modifies this`values
      ensures values == initialValues
    {
      values := initialValues;
    }
  }

  /** Two changes to the same name leave the later value and touch nothing else. */
  method LastWriteWins(store: FormStore, name: string, first: string, second: string)
    modifies store
    ensures store.values == old(store.values)[name := second]
    ensures name in store.values && store.values[name] == second
    ensures store.values.Keys == old(store.values).Keys + {name}
    ensures forall k :: k in old(store.values) && k != name ==> store.values[k] == old(store.values)[k]
  {
    store.HandleChange(name, first);
    store.HandleChange(name, second);
  }

  /** Resetting twice ends where resetting once does, whatever was changed before. */
  method ResetTwice(store: FormStore, name: string, value: string)
    modifies store
    ensures store.values == store.initialValues
  {
    store.HandleChange(name, value);
    store.ResetFields();
    store.ResetFields();
  }
}
