/**
 * The entity classes the extracted information is meant to fill: the
 * `Dates` record with its one-field rule, the value records `Code`,
 * `Entity_designation` and `Location`, and the `Individual`,
 * `Demographics` and `Organisation` objects with their initial fields.
 */
module Entities {
  import opened Wrappers

  // ---------------------------------------------------------------------
  // Dates

  /** A date mention: at most one of the three texts is set (`None` is `Option.None`). */
  datatype Dates = Dates(descriptionOfDate: Option<string>, date: Option<string>, duration: Option<string>, uuid: string)

  /** How many of the three texts are not `None`. */
  function NonNoneCount(descriptionOfDate: Option<string>, date: Option<string>, duration: Option<string>): nat
  {
    (if descriptionOfDate.Some? then 1 else 0) + (if date.Some? then 1 else 0) + (if duration.Some? then 1 else 0)
  }

  /** No two of the three texts are set together. */
  predicate AtMostOneSet(descriptionOfDate: Option<string>, date: Option<string>, duration: Option<string>)
  {
    !(descriptionOfDate.Some? && date.Some?) && !(descriptionOfDate.Some? && duration.Some?) && !(date.Some? && duration.Some?)
  }

  /** The invariant every constructed `Dates` keeps. */
  predicate ValidDates(d: Dates)
  {
    AtMostOneSet(d.descriptionOfDate, d.date, d.duration)
  }

  /**
   * `Dates(description_of_date, date, duration)` with the uuid drawn by its
   * default factory: `__post_init__` raises `ValueError` when more than one
   * text is set, and the instance keeps the given fields otherwise.
   */
  function NewDates(descriptionOfDate: Option<string>, date: Option<string>, duration: Option<string>, uuid: string): (r: Result<Dates>)
    ensures r.Ok? <==> AtMostOneSet(descriptionOfDate, date, duration)
    ensures r.Ok? ==> ValidDates(r.value)
                      && r.value.descriptionOfDate == descriptionOfDate && r.value.date == date
                      && r.value.duration == duration && r.value.uuid == uuid
    ensures r.Err? ==> r.error == ValueError
  {
    if NonNoneCount(descriptionOfDate, date, duration) > 1 then Err(ValueError)
    else Ok(Dates(descriptionOfDate, date, duration, uuid))
  }

  /** Setting one text is always accepted; setting two of them never is, whatever the third. */
  lemma DatesOneField(text: string, other: string, third: Option<string>, uuid: string)
    ensures NewDates(Some(text), None, None, uuid).Ok? && NewDates(None, Some(text), None, uuid).Ok?
            && NewDates(None, None, Some(text), uuid).Ok? && NewDates(None, None, None, uuid).Ok?
    ensures NewDates(Some(text), Some(other), third, uuid) == Err(ValueError)
    ensures NewDates(Some(text), third, Some(other), uuid) == Err(ValueError)
    ensures NewDates(third, Some(text), Some(other), uuid) == Err(ValueError)
  {
  }

  // ---------------------------------------------------------------------
  // Value records

  datatype Code = Code(telephoneNumber: string, governmentIdNumber: string, identificationNumber: string)

  /** The means to refer to an individual. */
  datatype EntityDesignation = EntityDesignation(
    fullName: seq<string>,
    nicknameOrAlias: seq<string>,
    abbreviation: seq<string>,
    socialMediaHandle: seq<string>,
    code: Code)

  /** A location; `near` lists the locations near it. */
  datatype Location = Location(
    address: seq<string>,
    district: seq<string>,
    city: seq<string>,
    country: seq<string>,
    continent: seq<string>,
    near: seq<Location>,
    uuid: string)

  /** The dataclasses the entities hold or list; their own fields are not part of this model. */
  datatype Component =
    | Health | Socioeconomic | Residence | EmotionalDescription | PhysicalDescription | Heritage
    | Research | Worldview | GenderSexualOrientation | Family | Age
    | Membership | RelationWithOtherIndividuals | ProfessionalLife | EducationInstitute | University
    | OrganisationCharacteristics | RegulatoryCompliance | AimOfOperations | CustomerBase | Financial
    | RelationWithOtherOrganisations | TechnologyUsed | Department

  /** What an attribute refers to: an instance built with every field at its default, or the class object itself. */
  datatype Part = Instance(of: Component) | ClassObject(of: Component)

  // ---------------------------------------------------------------------
  // Demographics

  class Demographics {
    var health: Part
    var socioeconomic: Part
    var residence: Part
    var emotionalDescription: Part
    var memberOf: seq<Part>
    var physicalDescription: Part
    var heritage: Part
    var relationWithOtherIndividuals: seq<Part>
    var professionalLife: seq<Part>
    var research: Part
    var school: seq<Part>
    var university: seq<Part>
    var worldview: Part
    var genderSexualOrientation: Part
    var family: Part
    var age: Part

    /** Every component apart from `gender_sexual_orientation` is a fresh default instance; every list is empty. */
    predicate Components()
      reads this
    {
      health == Instance(Health) && socioeconomic == Instance(Socioeconomic) && residence == Instance(Residence)
      && emotionalDescription == Instance(EmotionalDescription) && physicalDescription == Instance(PhysicalDescription)
      && heritage == Instance(Heritage) && research == Instance(Research) && worldview == Instance(Worldview)
      && family == Instance(Family) && age == Instance(Age)
      && memberOf == [] && relationWithOtherIndividuals == [] && professionalLife == [] && school == [] && university == []
    }

    /** The state the documented attributes describe: every component an instance of its class. */
    predicate Defaults()
      reads this
    {
      Components() && genderSexualOrientation == Instance(GenderSexualOrientation)
    }

    /** `Demographics()` as written: `gender_sexual_orientation` is bound to the class object. */
    constructor AsWritten()
      ensures Components() && genderSexualOrientation == ClassObject(GenderSexualOrientation)
    {
      health := Instance(Health);
      socioeconomic := Instance(Socioeconomic);
      residence := Instance(Residence);
      emotionalDescription := Instance(EmotionalDescription);
      memberOf := [];
      physicalDescription := Instance(PhysicalDescription);
      heritage := Instance(Heritage);
      relationWithOtherIndividuals := [];
      professionalLife := [];
      research := Instance(Research);
      school := [];
      university := [];
      worldview := Instance(Worldview);
      genderSexualOrientation := ClassObject(GenderSexualOrientation);
      family := Instance(Family);
      age := Instance(Age);
    }

    /** `Demographics()` with `gender_sexual_orientation` built as an instance, like every other component. */
    constructor ()
      ensures Defaults()
    {
      health := Instance(Health);
      socioeconomic := Instance(Socioeconomic);
      residence := Instance(Residence);
      emotionalDescription := Instance(EmotionalDescription);
      memberOf := [];
      physicalDescription := Instance(PhysicalDescription);
      heritage := Instance(Heritage);
      relationWithOtherIndividuals := [];
      professionalLife := [];
      research := Instance(Research);
      school := [];
      university := [];
      worldview := Instance(Worldview);
      genderSexualOrientation := Instance(GenderSexualOrientation);
      family := Instance(Family);
      age := Instance(Age);
    }
  }

  /** Built as written, a `Demographics` holds the shared class object where its own instance belongs. */
  method GenderSexualOrientationAsWritten() returns (held: Part)
    ensures held == ClassObject(GenderSexualOrientation) && !held.Instance?
  {
    var d := new Demographics.AsWritten();
    held := d.genderSexualOrientation;
  }

  /** Built as intended, a `Demographics` holds an instance of `Gender_sexual_orientation`. */
  method GenderSexualOrientationCorrected() returns (held: Part)
    ensures held == Instance(GenderSexualOrientation)
  {
    var d := new Demographics();
    held := d.genderSexualOrientation;
  }

  // ---------------------------------------------------------------------
  // Individual

  class Individual {
    var entityDesignation: EntityDesignation
    var demographics: Demographics
    var uuid: string

    /** `Individual(entity_designation)`, with the uuid drawn by `uuid4`. */
    constructor (entityDesignation: EntityDesignation, uuid: string)
      ensures this.entityDesignation == entityDesignation && this.uuid == uuid
      ensures fresh(demographics) && demographics.Defaults()
    {
      this.entityDesignation := entityDesignation;
      demographics := new Demographics();
      this.uuid := uuid;
    }
  }

  // ---------------------------------------------------------------------
  // Organisation

  /** What the `name` attribute holds: a designation, or a list of locations. */
  datatype NameAttribute = Designation(designation: EntityDesignation) | Addresses(locations: seq<Location>)

  class Organisation {
    var name: NameAttribute
    /** `None`: the instance has no `address` attribute. */
    var address: Option<seq<Location>>
    var characteristics: Part
    var regulatoryCompliance: Part
    var aimOfOperations: Part
    var customerBase: Part
    var relationWithOtherOrganisations: seq<Part>
    var technologyUsed: seq<Part>
    var financial: Part
    var departments: seq<Part>
    var members: seq<Part>
    var uuid: string

    /** Every component a fresh default instance, every list empty. */
    predicate Components()
      reads this
    {
      characteristics == Instance(OrganisationCharacteristics) && regulatoryCompliance == Instance(RegulatoryCompliance)
      && aimOfOperations == Instance(AimOfOperations) && customerBase == Instance(CustomerBase)
      && financial == Instance(Financial)
      && relationWithOtherOrganisations == [] && technologyUsed == [] && departments == [] && members == []
    }

    /** `Organisation(name, address)` as written: the second assignment to `name` stores the address there. */
    constructor AsWritten(name: EntityDesignation, address: seq<Location>, uuid: string)
      ensures this.name == Addresses(address) && this.address == None && Components() && this.uuid == uuid
    {
      this.name := Designation(name);
      this.name := Addresses(address);
      this.address := None;
      characteristics := Instance(OrganisationCharacteristics);
      regulatoryCompliance := Instance(RegulatoryCompliance);
      aimOfOperations := Instance(AimOfOperations);
      customerBase := Instance(CustomerBase);
      relationWithOtherOrganisations := [];
      technologyUsed := [];
      financial := Instance(Financial);
      departments := [];
      members := [];
      this.uuid := uuid;
    }

    /** `Organisation(name, address)` keeping the name and storing the address under `address`. */
    constructor (name: EntityDesignation, address: seq<Location>, uuid: string)
      ensures this.name == Designation(name) && this.address == Some(address) && Components() && this.uuid == uuid
    {
      this.name := Designation(name);
      this.address := Some(address);
      characteristics := Instance(OrganisationCharacteristics);
      regulatoryCompliance := Instance(RegulatoryCompliance);
      aimOfOperations := Instance(AimOfOperations);
      customerBase := Instance(CustomerBase);
      relationWithOtherOrganisations := [];
      technologyUsed := [];
      financial := Instance(Financial);
      departments := [];
      members := [];
      this.uuid := uuid;
    }
  }

  /** Built as written, an organisation has lost its name to its address list and has no `address`. */
  method OrganisationAsWritten(name: EntityDesignation, address: seq<Location>, uuid: string)
    returns (heldName: NameAttribute, heldAddress: Option<seq<Location>>)
    ensures heldName == Addresses(address) && heldName != Designation(name) && heldAddress == None
  {
    var o := new Organisation.AsWritten(name, address, uuid);
    heldName := o.name;
    heldAddress := o.address;
  }

  /** Built as intended, an organisation keeps its name and its address list apart. */
  method OrganisationCorrected(name: EntityDesignation, address: seq<Location>, uuid: string)
    returns (heldName: NameAttribute, heldAddress: Option<seq<Location>>)
    ensures heldName == Designation(name) && heldAddress == Some(address)
  {
    var o := new Organisation(name, address, uuid);
    heldName := o.name;
    heldAddress := o.address;
  }
}
