/**
 * The type registry: one parameter type registry and one data table type
 * registry, each call forwarded to exactly one of them.
 */
module Types {
  import opened Wrappers
  import opened Exceptions
  import Messages
  import Parameters
  import DataTables
  import ParameterRegistry

  class TypeRegistry {
    const parameterTypeRegistry: ParameterRegistry.ParameterTypeRegistry
    const dataTableTypeRegistry: DataTables.DataTableTypeRegistry

    ghost predicate Valid()
      reads this, parameterTypeRegistry, dataTableTypeRegistry
    {
      parameterTypeRegistry.Valid() && dataTableTypeRegistry.Valid()
    }

    constructor (locale: ParameterRegistry.Locale)
      ensures fresh(parameterTypeRegistry) && fresh(dataTableTypeRegistry)
      ensures parameterTypeRegistry.locale == locale && parameterTypeRegistry.parameterTypes == []
      ensures dataTableTypeRegistry.State() == DataTables.Empty()
      ensures Valid()
    {
      parameterTypeRegistry := new ParameterRegistry.ParameterTypeRegistry(locale);
      dataTableTypeRegistry := new DataTables.DataTableTypeRegistry();
    }

    /** The owned parameter type registry, always the same instance. */
    method ParameterTypeRegistry() returns (r: ParameterRegistry.ParameterTypeRegistry)
      ensures r == parameterTypeRegistry
    {
      r := parameterTypeRegistry;
    }

    /** The parameter type registry's define; the data table registry is not touched. */
    method DefineParameterType(p: Parameters.ParameterType) returns (outcome: Outcome<CucumberError>)
      requires Valid()
      modifies parameterTypeRegistry
      ensures Valid()
      ensures Parameters.Define(old(parameterTypeRegistry.parameterTypes), p).Failure? ==>
        outcome == Fail(Parameters.Define(old(parameterTypeRegistry.parameterTypes), p).error) &&
        parameterTypeRegistry.parameterTypes == old(parameterTypeRegistry.parameterTypes)
      ensures Parameters.Define(old(parameterTypeRegistry.parameterTypes), p).Success? ==>
        outcome == Pass && parameterTypeRegistry.parameterTypes == old(parameterTypeRegistry.parameterTypes) + [p]
      ensures unchanged(dataTableTypeRegistry)
    {
      outcome := parameterTypeRegistry.DefineParameterType(p);
    }

    /** The data table registry's define; the parameter type registry is not touched. */
    method DefineDataTableType(t: DataTables.DataTableType) returns (outcome: Outcome<CucumberError>)
      requires Valid()
      modifies dataTableTypeRegistry
      ensures Valid()
      ensures DataTables.Define(old(dataTableTypeRegistry.State()), t).Failure? ==>
        outcome == Fail(DataTables.Define(old(dataTableTypeRegistry.State()), t).error) &&
        dataTableTypeRegistry.State() == old(dataTableTypeRegistry.State())
      ensures DataTables.Define(old(dataTableTypeRegistry.State()), t).Success? ==>
        outcome == Pass && dataTableTypeRegistry.State() == DataTables.Define(old(dataTableTypeRegistry.State()), t).value
      ensures unchanged(parameterTypeRegistry)
    {
      outcome := dataTableTypeRegistry.DefineDataTableType(t);
    }

    method LookupParameterTypeByType(typeKey: string) returns (r: Result<Option<Parameters.ParameterType>, CucumberError>)
      ensures r == Parameters.LookupByType(parameterTypeRegistry.parameterTypes, typeKey)
    {
      r := parameterTypeRegistry.LookupByType(typeKey);
    }

    method LookupParameterTypeByTypeName(typeName: string) returns (r: Option<Parameters.ParameterType>)
      ensures r == Parameters.LookupByName(parameterTypeRegistry.parameterTypes, typeName)
    {
      r := parameterTypeRegistry.LookupByTypeName(typeName);
    }

    method LookupTableTypeByType(typeKey: string) returns (r: Option<DataTables.DataTableType>)
      ensures r == DataTables.LookupByType(dataTableTypeRegistry.State(), typeKey)
    {
      r := dataTableTypeRegistry.LookupTableTypeByType(typeKey);
    }

    method LookupTableTypeByName(name: string) returns (r: Option<DataTables.DataTableType>)
      ensures r == DataTables.LookupByName(dataTableTypeRegistry.State(), name)
    {
      r := dataTableTypeRegistry.LookupTableTypeByName(name);
    }
  }
}
