/** A droplet template: what the autoscaler creates instances from. */
module Template {
  import opened Wrappers
  import opened Autoscale
  import opened Config

  class Template {
    var id: string
    var name: string
    var region: string
    var size: string
    var image: string
    var sshKeys: seq<string>
    var userData: string

    constructor (name: string, region: string, size: string, image: string, sshKeys: seq<string>, userData: string)
      ensures this.id == "" && this.name == name && this.region == region && this.size == size
      ensures this.image == image && this.sshKeys == sshKeys && this.userData == userData
    {
      this.id := "";
      this.name := name;
      this.region := region;
      this.size := size;
      this.image := image;
      this.sshKeys := sshKeys;
      this.userData := userData;
    }

    /** A template is valid iff its name is: a word character followed by
        letters, digits and dashes. */
    function IsValid(): (valid: bool)
      reads this
      ensures valid <==> ValidName(name)
      ensures valid ==> |name| >= 1
    {
      NameMatches(name)
    }

    /** The template's ID, empty until one is set. */
    function GetID(): (r: string)
      reads this
      ensures r == id
    {
      id
    }

    /** Sets the ID, and nothing else; it never fails. */
    method SetID(newID: string) returns (err: Option<Error>)
      modifies this
      ensures err == None
      ensures id == newID
      ensures name == old(name) && region == old(region) && size == old(size)
      ensures image == old(image) && sshKeys == old(sshKeys) && userData == old(userData)
    {
      id := newID;
      err := None;
    }
  }

  /** Two templates with the same name are both valid or both invalid,
      whatever their other fields. */
  lemma ValidityDependsOnNameOnly(t: Template, u: Template)
    requires t.name == u.name
    ensures t.IsValid() <==> u.IsValid()
    ensures t.IsValid() <==> ValidName(t.name)
  {
  }

  /** The ID set is the ID read back, and validity is not affected. */
  method SetThenGet(t: Template, newID: string) returns (got: string)
    modifies t
    ensures got == newID
    ensures t.IsValid() <==> old(t.IsValid())
  {
    var _ := t.SetID(newID);
    got := t.GetID();
  }
}
