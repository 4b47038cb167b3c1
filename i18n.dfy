/**
 * Translation lookup (`apps/frontend/src/lib/i18n.ts`): two tables from a
 * closed set of keys to strings, a lookup that falls back to the key itself
 * when the string is empty, and the locale persisted in browser storage.
 * A key `group.name` is written `Group(GroupKey.Name)`.
 */
module I18n {
  import opened Wrappers

  datatype Locale = PtBR | EnUS

  function Tag(l: Locale): string
  {
    match l
    case PtBR => "pt-BR"
    case EnUS => "en-US"
  }

  /** The table `translations[locale]`, when `locale` names one. */
  function LocaleOf(tag: string): (r: Option<Locale>)
    ensures r.Some? ==> Tag(r.value) == tag
    ensures forall l :: Tag(l) == tag ==> r == Some(l)
  {
    if tag == "pt-BR" then Some(PtBR) else if tag == "en-US" then Some(EnUS) else None
  }

  const DefaultLocale := "pt-BR"
  const LocaleStorageKey := "locale"
  const MissingTable := "translations[locale] is undefined"

  /**
   * The names `translations` inherits from `Object.prototype`. Indexing the
   * object with one of them gives a function (or, for `__proto__`, the
   * prototype itself), not `undefined`; no key of the form "group.name" is a
   * property of those, so the lookup then falls back to the key.
   */
  const InheritedNames: set<string> := {
    "constructor", "__proto__", "hasOwnProperty", "isPrototypeOf", "propertyIsEnumerable",
    "toLocaleString", "toString", "valueOf",
    "__defineGetter__", "__defineSetter__", "__lookupGetter__", "__lookupSetter__"}

  /** `TranslationKey`: the keys of the pt-BR table, by group. */
  datatype Key =
    | Auth(authKey: AuthKey)
    | Dashboard(dashboardKey: DashboardKey)
    | Animals(animalsKey: AnimalsKey)
    | Greeting(greetingKey: GreetingKey)
    | ViewMode(viewModeKey: ViewModeKey)
    | Stats(statsKey: StatsKey)
    | Profile(profileKey: ProfileKey)
    | Common(commonKey: CommonKey)

  datatype AuthKey =
    | Login
    | Register
    | Logout
    | Email
    | Password
    | ConfirmPassword
    | ForgotPassword
    | NoAccount
    | HaveAccount
    | LoginSuccess
    | LoginDeveloper
    | LoginDescription
    | RegisterDescription
    | Name
    | Phone

  datatype DashboardKey =
    | Title
    | Welcome
    | MyAnimals
    | AllAnimals
    | Profile
    | NewAnimal
    | Notifications
    | RecentAnimals

  datatype AnimalsKey =
    | Edit
    | Delete
    | DeleteConfirm
    | Name
    | Age
    | Breed
    | Type
    | Dog
    | Cat
    | Owner
    | OwnerName
    | Contact
    | Search
    | Filter
    | FilterAll
    | NotFound
    | ClickToAdd
    | Photo
    | Years
    | ViewDetails
    | Created
    | Updated
    | ErrorLoading
    | ErrorUpdating
    | ErrorDeleting
    | UpdateSuccess
    | DeleteSuccess
    | Details
    | New
    | NewSubtitle
    | PetData
    | PetDataSubtitle
    | OwnerSection
    | ChangePhoto
    | ClickToAddPhoto
    | NoPhoto
    | RegisteredAt
    | ConfirmDelete
    | DeleteWarning
    | Deleting

  datatype GreetingKey =
    | Morning
    | Afternoon
    | Evening

  datatype ViewModeKey =
    | List
    | Grid
    | Compact

  datatype StatsKey =
    | TotalPets
    | Dogs
    | Cats
    | AvgAge
    | Title

  datatype ProfileKey =
    | Title
    | PersonalInfo
    | Settings
    | Theme
    | Language
    | UpdateSuccess
    | Notifications
    | EmailNotifications
    | PushNotifications
    | ManageInfo
    | FullName
    | MemberSince
    | EmailNote
    | EditBtn
    | SettingsDescription
    | SecurityLabel
    | SecurityDescription
    | AppearanceLabel
    | AppearanceDescription
    | PushDescription
    | LogoutBtn
    | NotificationsDescription

  datatype CommonKey =
    | Save
    | Cancel
    | Edit
    | Delete
    | Search
    | Loading
    | Saving
    | Select
    | UpTo
    | Or
    | Close
    | Yes
    | No
    | Submit
    | Back

  function KeyName(k: Key): string
  {
    match k
    case Auth(x) => "auth." + AuthName(x)
    case Dashboard(x) => "dashboard." + DashboardName(x)
    case Animals(x) => "animals." + AnimalsName(x)
    case Greeting(x) => "greeting." + GreetingName(x)
    case ViewMode(x) => "viewMode." + ViewModeName(x)
    case Stats(x) => "stats." + StatsName(x)
    case Profile(x) => "profile." + ProfileName(x)
    case Common(x) => "common." + CommonName(x)
  }

  function AuthName(x: AuthKey): string
  {
    match x
    case Login => "login"
    case Register => "register"
    case Logout => "logout"
    case Email => "email"
    case Password => "password"
    case ConfirmPassword => "confirmPassword"
    case ForgotPassword => "forgotPassword"
    case NoAccount => "noAccount"
    case HaveAccount => "haveAccount"
    case LoginSuccess => "loginSuccess"
    case LoginDeveloper => "loginDeveloper"
    case LoginDescription => "loginDescription"
    case RegisterDescription => "registerDescription"
    case Name => "name"
    case Phone => "phone"
  }

  function DashboardName(x: DashboardKey): string
  {
    match x
    case Title => "title"
    case Welcome => "welcome"
    case MyAnimals => "myAnimals"
    case AllAnimals => "allAnimals"
    case Profile => "profile"
    case NewAnimal => "newAnimal"
    case Notifications => "notifications"
    case RecentAnimals => "recentAnimals"
  }

  function AnimalsName(x: AnimalsKey): string
  {
    match x
    case Edit => "edit"
    case Delete => "delete"
    case DeleteConfirm => "deleteConfirm"
    case Name => "name"
    case Age => "age"
    case Breed => "breed"
    case Type => "type"
    case Dog => "dog"
    case Cat => "cat"
    case Owner => "owner"
    case OwnerName => "ownerName"
    case Contact => "contact"
    case Search => "search"
    case Filter => "filter"
    case FilterAll => "filterAll"
    case NotFound => "notFound"
    case ClickToAdd => "clickToAdd"
    case Photo => "photo"
    case Years => "years"
    case ViewDetails => "viewDetails"
    case Created => "created"
    case Updated => "updated"
    case ErrorLoading => "errorLoading"
    case ErrorUpdating => "errorUpdating"
    case ErrorDeleting => "errorDeleting"
    case UpdateSuccess => "updateSuccess"
    case DeleteSuccess => "deleteSuccess"
    case Details => "details"
    case New => "new"
    case NewSubtitle => "newSubtitle"
    case PetData => "petData"
    case PetDataSubtitle => "petDataSubtitle"
    case OwnerSection => "ownerSection"
    case ChangePhoto => "changePhoto"
    case ClickToAddPhoto => "clickToAddPhoto"
    case NoPhoto => "noPhoto"
    case RegisteredAt => "registeredAt"
    case ConfirmDelete => "confirmDelete"
    case DeleteWarning => "deleteWarning"
    case Deleting => "deleting"
  }

  function GreetingName(x: GreetingKey): string
  {
    match x
    case Morning => "morning"
    case Afternoon => "afternoon"
    case Evening => "evening"
  }

  function ViewModeName(x: ViewModeKey): string
  {
    match x
    case List => "list"
    case Grid => "grid"
    case Compact => "compact"
  }

  function StatsName(x: StatsKey): string
  {
    match x
    case TotalPets => "totalPets"
    case Dogs => "dogs"
    case Cats => "cats"
    case AvgAge => "avgAge"
    case Title => "title"
  }

  function ProfileName(x: ProfileKey): string
  {
    match x
    case Title => "title"
    case PersonalInfo => "personalInfo"
    case Settings => "settings"
    case Theme => "theme"
    case Language => "language"
    case UpdateSuccess => "updateSuccess"
    case Notifications => "notifications"
    case EmailNotifications => "emailNotifications"
    case PushNotifications => "pushNotifications"
    case ManageInfo => "manageInfo"
    case FullName => "fullName"
    case MemberSince => "memberSince"
    case EmailNote => "emailNote"
    case EditBtn => "editBtn"
    case SettingsDescription => "settingsDescription"
    case SecurityLabel => "securityLabel"
    case SecurityDescription => "securityDescription"
    case AppearanceLabel => "appearanceLabel"
    case AppearanceDescription => "appearanceDescription"
    case PushDescription => "pushDescription"
    case LogoutBtn => "logoutBtn"
    case NotificationsDescription => "notificationsDescription"
  }

  function CommonName(x: CommonKey): string
  {
    match x
    case Save => "save"
    case Cancel => "cancel"
    case Edit => "edit"
    case Delete => "delete"
    case Search => "search"
    case Loading => "loading"
    case Saving => "saving"
    case Select => "select"
    case UpTo => "upTo"
    case Or => "or"
    case Close => "close"
    case Yes => "yes"
    case No => "no"
    case Submit => "submit"
    case Back => "back"
  }

  /** The pt-BR table; no entry is empty. */
  function PtBRText(k: Key): (r: string)
    ensures r != ""
  {
    match k
    case Auth(x) => PtBRAuth(x)
    case Dashboard(x) => PtBRDashboard(x)
    case Animals(x) => PtBRAnimals(x)
    case Greeting(x) => PtBRGreeting(x)
    case ViewMode(x) => PtBRViewMode(x)
    case Stats(x) => PtBRStats(x)
    case Profile(x) => PtBRProfile(x)
    case Common(x) => PtBRCommon(x)
  }

  function PtBRAuth(x: AuthKey): (r: string)
    ensures r != ""
  {
    match x
    case Login => "Entrar"
    case Register => "Cadastrar"
    case Logout => "Sair"
    case Email => "E-mail"
    case Password => "Senha"
    case ConfirmPassword => "Confirmar Senha"
    case ForgotPassword => "Esqueceu a senha?"
    case NoAccount => "Ainda não tem uma conta?"
    case HaveAccount => "Já tem uma conta?"
    case LoginSuccess => "Login realizado com sucesso!"
    case LoginDeveloper => "Entrar como Desenvolvedor (Mock)"
    case LoginDescription => "Entre na sua conta para gerenciar o petshop"
    case RegisterDescription => "Crie sua conta para começar"
    case Name => "Nome"
    case Phone => "Telefone"
  }

  function PtBRDashboard(x: DashboardKey): (r: string)
    ensures r != ""
  {
    match x
    case Title => "Dashboard"
    case Welcome => "Bem-vindo de volta!"
    case MyAnimals => "Meus Animais"
    case AllAnimals => "Todos os Animais"
    case Profile => "Meu Perfil"
    case NewAnimal => "Cadastrar"
    case Notifications => "Notificações"
    case RecentAnimals => "Animais recentes"
  }

  function PtBRAnimals(x: AnimalsKey): (r: string)
    ensures r != ""
  {
    match x
    case Edit => "Editar Animal"
    case Delete => "Excluir Animal"
    case DeleteConfirm => "Tem certeza que deseja excluir este animal?"
    case Name => "Nome"
    case Age => "Idade"
    case Breed => "Raça"
    case Type => "Tipo"
    case Dog => "Cachorro"
    case Cat => "Gato"
    case Owner => "Tutor"
    case OwnerName => "Nome do Tutor"
    case Contact => "Contato"
    case Search => "Buscar animal..."
    case Filter => "Filtrar"
    case FilterAll => "Todos"
    case NotFound => "Nenhum animal encontrado"
    case ClickToAdd => "Clique para adicionar foto"
    case Photo => "Foto"
    case Years => "anos"
    case ViewDetails => "Ver Detalhes"
    case Created => "Criado em"
    case Updated => "Atualizado em"
    case ErrorLoading => "Erro ao carregar animais"
    case ErrorUpdating => "Erro ao atualizar animal"
    case ErrorDeleting => "Erro ao excluir animal"
    case UpdateSuccess => "Animal atualizado com sucesso!"
    case DeleteSuccess => "Animal excluido com sucesso!"
    case Details => "Detalhes do Animal"
    case New => "Cadastrar Novo"
    case NewSubtitle => "Adicione um novo pet ao sistema"
    case PetData => "Dados do Animal"
    case PetDataSubtitle => "Preencha as informações do pet"
    case OwnerSection => "Dados do Tutor"
    case ChangePhoto => "Alterar foto"
    case ClickToAddPhoto => "Clique para adicionar foto"
    case NoPhoto => "Sem foto"
    case RegisteredAt => "Cadastrado em"
    case ConfirmDelete => "Confirmar Exclusão"
    case DeleteWarning => "Esta ação não pode ser desfeita. O registro do animal será permanentemente removido do sistema."
    case Deleting => "Excluindo..."
  }

  function PtBRGreeting(x: GreetingKey): (r: string)
    ensures r != ""
  {
    match x
    case Morning => "Bom dia"
    case Afternoon => "Boa tarde"
    case Evening => "Boa noite"
  }

  function PtBRViewMode(x: ViewModeKey): (r: string)
    ensures r != ""
  {
    match x
    case List => "Lista"
    case Grid => "Grade"
    case Compact => "Compacto"
  }

  function PtBRStats(x: StatsKey): (r: string)
    ensures r != ""
  {
    match x
    case TotalPets => "Total de Pets"
    case Dogs => "Cachorros"
    case Cats => "Gatos"
    case AvgAge => "Idade Média"
    case Title => "Estatísticas do Petshop"
  }

  function PtBRProfile(x: ProfileKey): (r: string)
    ensures r != ""
  {
    match x
    case Title => "Meu Perfil"
    case PersonalInfo => "Informações Pessoais"
    case Settings => "Configurações"
    case Theme => "Tema"
    case Language => "Idioma"
    case UpdateSuccess => "Perfil atualizado com sucesso!"
    case Notifications => "Notificações"
    case EmailNotifications => "Notificações por E-mail"
    case PushNotifications => "Notificações Push"
    case ManageInfo => "Gerencie suas informações"
    case FullName => "Nome completo"
    case MemberSince => "Membro desde"
    case EmailNote => "O e-mail não pode ser alterado"
    case EditBtn => "Editar Perfil"
    case SettingsDescription => "Gerencie suas preferências"
    case SecurityLabel => "Segurança"
    case SecurityDescription => "Senha e autenticação"
    case AppearanceLabel => "Aparência"
    case AppearanceDescription => "Tema e personalização"
    case PushDescription => "Receber alertas no dispositivo"
    case LogoutBtn => "Sair da conta"
    case NotificationsDescription => "Configurar alertas e lembretes"
  }

  function PtBRCommon(x: CommonKey): (r: string)
    ensures r != ""
  {
    match x
    case Save => "Salvar"
    case Cancel => "Cancelar"
    case Edit => "Editar"
    case Delete => "Deletar"
    case Search => "Buscar"
    case Loading => "Carregando..."
    case Saving => "Salvando..."
    case Select => "Selecione"
    case UpTo => "até"
    case Or => "ou"
    case Close => "Fechar"
    case Yes => "Sim"
    case No => "Não"
    case Submit => "Enviar"
    case Back => "Voltar"
  }

  /** The en-US table; no entry is empty. */
  function EnUSText(k: Key): (r: string)
    ensures r != ""
  {
    match k
    case Auth(x) => EnUSAuth(x)
    case Dashboard(x) => EnUSDashboard(x)
    case Animals(x) => EnUSAnimals(x)
    case Greeting(x) => EnUSGreeting(x)
    case ViewMode(x) => EnUSViewMode(x)
    case Stats(x) => EnUSStats(x)
    case Profile(x) => EnUSProfile(x)
    case Common(x) => EnUSCommon(x)
  }

  function EnUSAuth(x: AuthKey): (r: string)
    ensures r != ""
  {
    match x
    case Login => "Login"
    case Register => "Register"
    case Logout => "Logout"
    case Email => "Email"
    case Password => "Password"
    case ConfirmPassword => "Confirm Password"
    case ForgotPassword => "Forgot password?"
    case NoAccount => "Don't have an account?"
    case HaveAccount => "Already have an account?"
    case LoginSuccess => "Successfully logged in!"
    case LoginDeveloper => "Enter as Developer (Mock)"
    case LoginDescription => "Sign in to your account to manage the pet shop"
    case RegisterDescription => "Create your account to get started"
    case Name => "Name"
    case Phone => "Phone"
  }

  function EnUSDashboard(x: DashboardKey): (r: string)
    ensures r != ""
  {
    match x
    case Title => "Dashboard"
    case Welcome => "Welcome back!"
    case MyAnimals => "My Animals"
    case AllAnimals => "All Animals"
    case Profile => "My Profile"
    case NewAnimal => "Register"
    case Notifications => "Notifications"
    case RecentAnimals => "Recent animals"
  }

  function EnUSAnimals(x: AnimalsKey): (r: string)
    ensures r != ""
  {
    match x
    case Edit => "Edit Animal"
    case Delete => "Delete Animal"
    case DeleteConfirm => "Are you sure you want to delete this animal?"
    case Name => "Name"
    case Age => "Age"
    case Breed => "Breed"
    case Type => "Type"
    case Dog => "Dog"
    case Cat => "Cat"
    case Owner => "Owner"
    case OwnerName => "Owner Name"
    case Contact => "Contact"
    case Search => "Search animal..."
    case Filter => "Filter"
    case FilterAll => "All"
    case NotFound => "No animals found"
    case ClickToAdd => "Click to add photo"
    case Photo => "Photo"
    case Years => "years"
    case ViewDetails => "View Details"
    case Created => "Created at"
    case Updated => "Updated at"
    case ErrorLoading => "Error loading animals"
    case ErrorUpdating => "Error updating animal"
    case ErrorDeleting => "Error deleting animal"
    case UpdateSuccess => "Animal updated successfully!"
    case DeleteSuccess => "Animal deleted successfully!"
    case Details => "Animal Details"
    case New => "Register New"
    case NewSubtitle => "Add a new pet to the system"
    case PetData => "Pet Data"
    case PetDataSubtitle => "Fill in the pet information"
    case OwnerSection => "Owner Data"
    case ChangePhoto => "Change photo"
    case ClickToAddPhoto => "Click to add photo"
    case NoPhoto => "No photo"
    case RegisteredAt => "Registered at"
    case ConfirmDelete => "Confirm Deletion"
    case DeleteWarning => "This action cannot be undone. The animal record will be permanently removed from the system."
    case Deleting => "Deleting..."
  }

  function EnUSGreeting(x: GreetingKey): (r: string)
    ensures r != ""
  {
    match x
    case Morning => "Good morning"
    case Afternoon => "Good afternoon"
    case Evening => "Good evening"
  }

  function EnUSViewMode(x: ViewModeKey): (r: string)
    ensures r != ""
  {
    match x
    case List => "List"
    case Grid => "Grid"
    case Compact => "Compact"
  }

  function EnUSStats(x: StatsKey): (r: string)
    ensures r != ""
  {
    match x
    case TotalPets => "Total Pets"
    case Dogs => "Dogs"
    case Cats => "Cats"
    case AvgAge => "Average Age"
    case Title => "Petshop Statistics"
  }

  function EnUSProfile(x: ProfileKey): (r: string)
    ensures r != ""
  {
    match x
    case Title => "My Profile"
    case PersonalInfo => "Personal Information"
    case Settings => "Settings"
    case Theme => "Theme"
    case Language => "Language"
    case UpdateSuccess => "Profile updated successfully!"
    case Notifications => "Notifications"
    case EmailNotifications => "Email Notifications"
    case PushNotifications => "Push Notifications"
    case ManageInfo => "Manage your information"
    case FullName => "Full name"
    case MemberSince => "Member since"
    case EmailNote => "Email cannot be changed"
    case EditBtn => "Edit Profile"
    case SettingsDescription => "Manage your preferences"
    case SecurityLabel => "Security"
    case SecurityDescription => "Password and authentication"
    case AppearanceLabel => "Appearance"
    case AppearanceDescription => "Theme and personalization"
    case PushDescription => "Receive alerts on your device"
    case LogoutBtn => "Logout"
    case NotificationsDescription => "Configure alerts and reminders"
  }

  function EnUSCommon(x: CommonKey): (r: string)
    ensures r != ""
  {
    match x
    case Save => "Save"
    case Cancel => "Cancel"
    case Edit => "Edit"
    case Delete => "Delete"
    case Search => "Search"
    case Loading => "Loading..."
    case Saving => "Saving..."
    case Select => "Select"
    case UpTo => "up to"
    case Or => "or"
    case Close => "Close"
    case Yes => "Yes"
    case No => "No"
    case Submit => "Submit"
    case Back => "Back"
  }
  function Table(l: Locale, k: Key): string
  {
    match l
    case PtBR => PtBRText(k)
    case EnUS => EnUSText(k)
  }

  /**
   * `translations[locale][key] || key`, the lookup behind both `t` and the
   * hook's `translate`. A locale string that names no table and no inherited
   * property makes the lookup throw; an inherited name gives the key.
   */
  function Translate(locale: string, k: Key): (r: Result<string, string>)
    ensures r.Failure? <==> LocaleOf(locale).None? && locale !in InheritedNames
    ensures LocaleOf(locale).Some? ==>
      var text := Table(LocaleOf(locale).value, k);
      r == Success(if text != "" then text else KeyName(k))
    ensures locale in InheritedNames ==> r == Success(KeyName(k))
  {
    match LocaleOf(locale)
    case None => if locale in InheritedNames then Success(KeyName(k)) else Failure(MissingTable)
    case Some(l) => var text := Table(l, k); Success(if text != "" then text else KeyName(k))
  }

  /** Every key has a non-empty string in both tables. */
  lemma TablesComplete(k: Key)
    ensures PtBRText(k) != "" && EnUSText(k) != ""
  {
  }

  /** For either locale, the lookup returns that locale's string and never falls back to the key. */
  lemma NeverFallsBack(l: Locale, k: Key)
    ensures Translate(Tag(l), k) == Success(Table(l, k))
  {
    TablesComplete(k);
  }

  /** The two tables differ somewhere: switching locale changes what is shown. */
  lemma TablesDiffer()
    ensures Table(PtBR, Auth(AuthKey.Login)) == "Entrar" && Table(EnUS, Auth(AuthKey.Login)) == "Login"
  {
  }

  /** The persisted locale: the `locale` storage key, and the `localeChange` events sent. */
  class LocaleStore {
    /** `typeof window !== 'undefined'`: false while rendering on the server. */
    const hasWindow: bool
    var stored: Option<string>
    var dispatched: seq<Locale>

    constructor (hasWindow: bool, stored: Option<string>)
      ensures this.hasWindow == hasWindow && this.stored == stored && dispatched == []
    {
      this.hasWindow := hasWindow;
      this.stored := stored;
      dispatched := [];
    }

    /** `getLocale`: the stored string unchecked (the `as Locale` cast), or pt-BR. */
    function GetLocale(): (r: string)
      reads this
      ensures !hasWindow ==> r == DefaultLocale
      ensures hasWindow && (stored.None? || stored == Some("")) ==> r == DefaultLocale
      ensures hasWindow && stored.Some? && stored.value != "" ==> r == stored.value
    {
      if !hasWindow then DefaultLocale
      else if stored.Some? && stored.value != "" then stored.value
      else DefaultLocale
    }

    method SetLocale(l: Locale)
      modifies this
      ensures !hasWindow ==> stored == old(stored) && dispatched == old(dispatched)
      ensures hasWindow && old(stored) == Some(Tag(l)) ==> stored == old(stored) && dispatched == old(dispatched)
      ensures hasWindow && old(stored) != Some(Tag(l)) ==>
        stored == Some(Tag(l)) && dispatched == old(dispatched) + [l]
      ensures hasWindow ==> GetLocale() == Tag(l)
    {
      if !hasWindow {
        return;
      }
      var current := stored;
      if current == Some(Tag(l)) {
        return;
      }
      stored := Some(Tag(l));
      dispatched := dispatched + [l];
    }

    /** `t(key)`: the lookup under the current locale. */
    function T(k: Key): (r: Result<string, string>)
      reads this
      ensures stored.None? || !hasWindow ==> r == Success(PtBRText(k))
      ensures LocaleOf(GetLocale()).Some? ==> r == Success(Table(LocaleOf(GetLocale()).value, k))
      ensures LocaleOf(GetLocale()).None? ==> (r.Failure? <==> GetLocale() !in InheritedNames)
      ensures GetLocale() in InheritedNames ==> r == Success(KeyName(k))
    {
      KnownLocaleNeverFallsBack(GetLocale(), k);
      Translate(GetLocale(), k)
    }
  }

  lemma KnownLocaleNeverFallsBack(tag: string, k: Key)
    ensures LocaleOf(tag).Some? ==> Translate(tag, k) == Success(Table(LocaleOf(tag).value, k))
  {
    TablesComplete(k);
  }

  /** A stored value naming no locale, such as "fr-FR", makes `t` fail for every key. */
  lemma UnknownStoredLocale(s: LocaleStore, k: Key)
    requires s.hasWindow && s.stored == Some("fr-FR")
    ensures s.T(k).Failure?
  {
  }

  /** A stored "constructor" or "__proto__" names no table, yet `t` returns the key instead of failing. */
  lemma InheritedStoredLocale(s: LocaleStore, k: Key)
    requires s.hasWindow && (s.stored == Some("constructor") || s.stored == Some("__proto__"))
    ensures s.T(k) == Success(KeyName(k))
    ensures LocaleOf(s.stored.value).None?
  {
  }

  /** A locale's tag names that locale again, and no two locales share a tag. */
  lemma TagRoundTrip(l: Locale, m: Locale)
    ensures LocaleOf(Tag(l)) == Some(l)
    ensures Tag(l) == Tag(m) ==> l == m
  {
  }
}
