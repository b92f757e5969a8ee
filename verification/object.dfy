/** A plain JavaScript object whose properties the hooks read and assign in place. */
module Objects {
  import opened Js

  class JsObject {
    /** Own properties; a missing key reads as `undefined`. */
    var fields: map<string, JsValue>

    constructor (fields: map<string, JsValue>)
      ensures this.fields == fields
    {
      this.fields := fields;
    }

    /** `obj[key]` */
    function Read(key: string): (v: JsValue)
      reads this
      ensures key in fields ==> v == fields[key]
      ensures key !in fields ==> v == Undefined
    {
      if key in fields then fields[key] else Undefined
    }
  }
}
