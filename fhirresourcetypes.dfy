// The closed list of resource type names that the FHIR reference pattern spells out as one
// alternation, with the one fact about it that the matcher relies on.
module FhirResourceTypes {
  /** The closed list of resource type names the pattern accepts, grouped by initial letter. */
  const RESOURCE_TYPES: set<string> :=
    TYPES_A + TYPES_B + TYPES_C + TYPES_D + TYPES_E + TYPES_F + TYPES_G + TYPES_H + TYPES_I + TYPES_L
    + TYPES_M + TYPES_N + TYPES_O + TYPES_P + TYPES_Q + TYPES_R + TYPES_S + TYPES_T + TYPES_V

  const TYPES_A: set<string> := {"Account", "ActivityDefinition", "AdverseEvent", "AllergyIntolerance",
    "Appointment", "AppointmentResponse", "AuditEvent"}
  const TYPES_B: set<string> := {"Basic", "Binary", "BodyStructure", "Bundle"}
  const TYPES_C: set<string> := {"CapabilityStatement", "CarePlan", "CareTeam", "ChargeItem", "Claim",
    "ClaimResponse", "ClinicalImpression", "CodeSystem", "Communication", "CommunicationRequest",
    "CompartmentDefinition", "Composition", "ConceptMap", "Condition", "Consent", "Contract",
    "Coverage"}
  const TYPES_D: set<string> := {"DetectedIssue", "Device", "DeviceComponent", "DeviceMetric",
    "DeviceRequest", "DeviceUseStatement", "DiagnosticReport", "DocumentManifest", "DocumentReference"}
  const TYPES_E: set<string> := {"EligibilityRequest", "EligibilityResponse", "Encounter", "Endpoint",
    "EnrollmentRequest", "EnrollmentResponse", "EpisodeOfCare", "EventDefinition", "ExpansionProfile",
    "ExplanationOfBenefit"}
  const TYPES_F: set<string> := {"FamilyMemberHistory", "Flag"}
  const TYPES_G: set<string> := {"Goal", "GraphDefinition", "Group", "GuidanceResponse"}
  const TYPES_H: set<string> := {"HealthcareService"}
  const TYPES_I: set<string> := {"ImagingManifest", "ImagingStudy", "Immunization",
    "ImmunizationRecommendation", "ImplementationGuide"}
  const TYPES_L: set<string> := {"Library", "Linkage", "List", "Location"}
  const TYPES_M: set<string> := {"Measure", "MeasureReport", "Media", "Medication",
    "MedicationAdministration", "MedicationDispense", "MedicationRequest", "MedicationStatement",
    "MessageDefinition", "MessageHeader"}
  const TYPES_N: set<string> := {"NamingSystem", "NutritionOrder"}
  const TYPES_O: set<string> := {"Observation", "OperationDefinition", "OperationOutcome",
    "Organization"}
  const TYPES_P: set<string> := {"Patient", "PaymentNotice", "PaymentReconciliation", "Person",
    "PlanDefinition", "Practitioner", "PractitionerRole", "Procedure", "ProcedureRequest",
    "ProcessRequest", "ProcessResponse", "Provenance"}
  const TYPES_Q: set<string> := {"Questionnaire", "QuestionnaireResponse"}
  const TYPES_R: set<string> := {"RelatedPerson", "RequestGroup", "ResearchStudy", "ResearchSubject",
    "RiskAssessment"}
  const TYPES_S: set<string> := {"Schedule", "SearchParameter", "Sequence", "ServiceDefinition",
    "Slot", "Specimen", "StructureDefinition", "StructureMap", "Subscription", "Substance",
    "SupplyDelivery", "SupplyRequest"}
  const TYPES_T: set<string> := {"Task", "TestReport", "TestScript"}
  const TYPES_V: set<string> := {"ValueSet", "VisionPrescription"}

  predicate IsResourceType(t: string) { t in RESOURCE_TYPES }

  /** The segment that introduces a version id. */
  const HISTORY: string := "_history"

  /** A set of names that can stand between two slashes and differ from `_history`. */
  predicate SlashFreeNames(types: set<string>) {
    forall t :: t in types ==> '/' !in t && t != HISTORY
  }

  /** No type name holds a slash, and `_history` is not a type name. */
  lemma ResourceTypesHaveNoSlash()
    ensures SlashFreeNames(RESOURCE_TYPES)
  {
    forall t | t in RESOURCE_TYPES ensures '/' !in t && t != HISTORY { TypeHasNoSlash(t); }
  }

  lemma TypeHasNoSlash(t: string)
    requires t in RESOURCE_TYPES
    ensures '/' !in t && t != HISTORY
  {
    if t in TYPES_A {
      TypesHaveNoSlashA();
    } else if t in TYPES_B {
      TypesHaveNoSlashB();
    } else if t in TYPES_C {
      TypesHaveNoSlashC();
    } else if t in TYPES_D {
      TypesHaveNoSlashD();
    } else if t in TYPES_E {
      TypesHaveNoSlashE();
    } else if t in TYPES_F {
      TypesHaveNoSlashF();
    } else if t in TYPES_G {
      TypesHaveNoSlashG();
    } else if t in TYPES_H {
      TypesHaveNoSlashH();
    } else if t in TYPES_I {
      TypesHaveNoSlashI();
    } else if t in TYPES_L {
      TypesHaveNoSlashL();
    } else if t in TYPES_M {
      TypesHaveNoSlashM();
    } else if t in TYPES_N {
      TypesHaveNoSlashN();
    } else if t in TYPES_O {
      TypesHaveNoSlashO();
    } else if t in TYPES_P {
      TypesHaveNoSlashP();
    } else if t in TYPES_Q {
      TypesHaveNoSlashQ();
    } else if t in TYPES_R {
      TypesHaveNoSlashR();
    } else if t in TYPES_S {
      TypesHaveNoSlashS();
    } else if t in TYPES_T {
      TypesHaveNoSlashT();
    } else {
      TypesHaveNoSlashV();
    }
  }

  lemma TypesHaveNoSlashA() ensures forall t :: t in TYPES_A ==> '/' !in t && t != HISTORY {}
  lemma TypesHaveNoSlashB() ensures forall t :: t in TYPES_B ==> '/' !in t && t != HISTORY {}
  lemma TypesHaveNoSlashC() ensures forall t :: t in TYPES_C ==> '/' !in t && t != HISTORY {}
  lemma TypesHaveNoSlashD() ensures forall t :: t in TYPES_D ==> '/' !in t && t != HISTORY {}
  lemma TypesHaveNoSlashE() ensures forall t :: t in TYPES_E ==> '/' !in t && t != HISTORY {}
  lemma TypesHaveNoSlashF() ensures forall t :: t in TYPES_F ==> '/' !in t && t != HISTORY {}
  lemma TypesHaveNoSlashG() ensures forall t :: t in TYPES_G ==> '/' !in t && t != HISTORY {}
  lemma TypesHaveNoSlashH() ensures forall t :: t in TYPES_H ==> '/' !in t && t != HISTORY {}
  lemma TypesHaveNoSlashI() ensures forall t :: t in TYPES_I ==> '/' !in t && t != HISTORY {}
  lemma TypesHaveNoSlashL() ensures forall t :: t in TYPES_L ==> '/' !in t && t != HISTORY {}
  lemma TypesHaveNoSlashM() ensures forall t :: t in TYPES_M ==> '/' !in t && t != HISTORY {}
  lemma TypesHaveNoSlashN() ensures forall t :: t in TYPES_N ==> '/' !in t && t != HISTORY {}
  lemma TypesHaveNoSlashO() ensures forall t :: t in TYPES_O ==> '/' !in t && t != HISTORY {}
  lemma TypesHaveNoSlashP() ensures forall t :: t in TYPES_P ==> '/' !in t && t != HISTORY {}
  lemma TypesHaveNoSlashQ() ensures forall t :: t in TYPES_Q ==> '/' !in t && t != HISTORY {}
  lemma TypesHaveNoSlashR() ensures forall t :: t in TYPES_R ==> '/' !in t && t != HISTORY {}
  lemma TypesHaveNoSlashS() ensures forall t :: t in TYPES_S ==> '/' !in t && t != HISTORY {}
  lemma TypesHaveNoSlashT() ensures forall t :: t in TYPES_T ==> '/' !in t && t != HISTORY {}
  lemma TypesHaveNoSlashV() ensures forall t :: t in TYPES_V ==> '/' !in t && t != HISTORY {}

  lemma SomeResourceTypes()
    ensures "Account" in RESOURCE_TYPES && "Patient" in RESOURCE_TYPES
  {
    assert "Account" in TYPES_A;
    assert "Patient" in TYPES_P;
  }
}
