/**
 * The interview configurations of the interview bot: five positions, each
 * with its company, seven competencies and a job description, looked up by
 * name with the Python developer configuration as the fallback.
 */
module InterviewConfigs {
  import opened Wrappers

  datatype InterviewConfig = InterviewConfig(
    position: string,
    company: string,
    competencies: seq<string>,
    jobDescription: string)

  const PythonName := "python_developer"
  const FrontendName := "frontend_developer"
  const FullstackName := "fullstack_developer"
  const DataScienceName := "data_scientist"
  const DevOpsName := "devops_engineer"

  const PythonDescription :=
    "\n        Мы ищем опытного Python разработчика "
    + "для работы над веб-приложениями и API.\n "
    + "       \n        Основные задачи:\n       "
    + " - Разработка веб-приложений на Django/FastAPI\n"
    + "        - Проектирование и разработка REST "
    + "API\n        - Работа с базами данных (PostgreSQL, "
    + "Redis)\n        - Написание тестов и поддержка "
    + "CI/CD\n        - Код-ревью и менторство\n "
    + "       \n        Технологии: Python 3.8+, "
    + "Django/FastAPI, PostgreSQL, Redis, Docker, "
    + "Git\n        "

  const FrontendDescription :=
    "\n        Ищем талантливого Frontend разработчика "
    + "для создания современных веб-интерфейсов.\n"
    + "        \n        Основные задачи:\n      "
    + "  - Разработка пользовательских интерфейсов "
    + "на React/Vue\n        - Интеграция с REST "
    + "API и GraphQL\n        - Оптимизация производительности "
    + "приложений\n        - Кроссбраузерная совместимость\n"
    + "        - Работа с дизайнерами над UX/UI\n"
    + "        \n        Технологии: JavaScript/TypeScript, "
    + "React/Vue, HTML5/CSS3, Webpack/Vite\n    "
    + "    "

  const FullstackDescription :=
    "\n        Требуется универсальный Fullstack "
    + "разработчик для работы над полным циклом "
    + "разработки.\n        \n        Основные задачи:\n"
    + "        - Разработка backend на Python/Node.js\n"
    + "        - Создание frontend интерфейсов\n"
    + "        - Проектирование архитектуры приложений\n"
    + "        - Настройка CI/CD пайплайнов\n   "
    + "     - Работа с облачными сервисами\n    "
    + "    \n        Технологии: Python/Node.js, "
    + "React/Vue, PostgreSQL, Docker, AWS/GCP\n "
    + "       "

  const DataScienceDescription :=
    "\n        Ищем Data Scientist для работы "
    + "с большими данными и ML моделями.\n      "
    + "  \n        Основные задачи:\n        - Анализ "
    + "данных и выявление инсайтов\n        - Построение "
    + "ML моделей\n        - A/B тестирование\n  "
    + "      - Создание дашбордов и отчетов\n   "
    + "     - Работа с продуктовой командой\n   "
    + "     \n        Технологии: Python, Pandas, "
    + "Scikit-learn, TensorFlow/PyTorch, SQL, Tableau\n"
    + "        "

  const DevOpsDescription :=
    "\n        Требуется DevOps инженер для автоматизации "
    + "и управления инфраструктурой.\n        \n "
    + "       Основные задачи:\n        - Настройка "
    + "CI/CD пайплайнов\n        - Управление Kubernetes "
    + "кластерами\n        - Автоматизация развертывания\n"
    + "        - Мониторинг и алертинг\n        "
    + "- Обеспечение безопасности\n        \n    "
    + "    Технологии: Docker, Kubernetes, AWS/GCP, "
    + "Jenkins/GitLab CI, Terraform, Prometheus\n"
    + "        "

  const PythonConfig := InterviewConfig(
    "Python Developer",
    "TechCompany",
    [
      "Python и его экосистема",
      "Веб-фреймворки (Django/FastAPI/Flask)",
      "Базы данных и ORM",
      "API разработка",
      "Тестирование",
      "Git и командная работа",
      "Архитектурное мышление"
    ],
    PythonDescription)

  const FrontendConfig := InterviewConfig(
    "Frontend Developer",
    "TechCompany",
    [
      "JavaScript/TypeScript",
      "React/Vue/Angular",
      "HTML/CSS и современные подходы",
      "Состояние приложения (Redux/Vuex)",
      "Сборщики и инструменты (Webpack/Vite)",
      "Тестирование фронтенда",
      "UX/UI понимание"
    ],
    FrontendDescription)

  const FullstackConfig := InterviewConfig(
    "Fullstack Developer",
    "TechCompany",
    [
      "Backend разработка (Python/Node.js)",
      "Frontend разработка (React/Vue)",
      "Базы данных и архитектура",
      "DevOps и деплой",
      "API дизайн",
      "Безопасность",
      "Системное мышление"
    ],
    FullstackDescription)

  const DataScienceConfig := InterviewConfig(
    "Data Scientist",
    "DataCompany",
    [
      "Python для анализа данных",
      "Машинное обучение",
      "Статистика и математика",
      "Pandas/NumPy/Scikit-learn",
      "Визуализация данных",
      "SQL и работа с БД",
      "Бизнес-понимание"
    ],
    DataScienceDescription)

  const DevOpsConfig := InterviewConfig(
    "DevOps Engineer",
    "TechCompany",
    [
      "Контейнеризация (Docker/Kubernetes)",
      "Облачные платформы (AWS/GCP/Azure)",
      "CI/CD пайплайны",
      "Инфраструктура как код",
      "Мониторинг и логирование",
      "Скриптинг (Bash/Python)",
      "Безопасность инфраструктуры"
    ],
    DevOpsDescription)
  /** INTERVIEW_CONFIGS: a dict, so its entries in definition order. */
  function Configs(): (r: seq<(string, InterviewConfig)>)
    ensures |r| == 5
  {
    [(PythonName, PythonConfig), (FrontendName, FrontendConfig), (FullstackName, FullstackConfig),
     (DataScienceName, DataScienceConfig), (DevOpsName, DevOpsConfig)]
  }

  /** dict lookup: the entry stored under name, if any. */
  function Lookup(entries: seq<(string, InterviewConfig)>, name: string): (r: Option<InterviewConfig>)
    ensures r.Some? ==> (name, r.value) in entries
    ensures r.None? <==> forall i :: 0 <= i < |entries| ==> entries[i].0 != name
  {
    if entries == [] then None
    else if entries[0].0 == name then Some(entries[0].1)
    else Lookup(entries[1..], name)
  }

  /** get_interview_config: the named configuration, or the Python developer one. */
  function GetInterviewConfig(name: string): (r: InterviewConfig)
    ensures exists i :: 0 <= i < |Configs()| && r == Configs()[i].1
    ensures r != Configs()[0].1 ==> exists i :: 0 <= i < |Configs()| && Configs()[i].0 == name && r == Configs()[i].1
  {
    Lookup(Configs(), name).GetOr(Configs()[0].1)
  }

  /** list_available_configs: the names, in definition order. */
  function ListAvailableConfigs(): (r: seq<string>)
    ensures r == [PythonName, FrontendName, FullstackName, DataScienceName, DevOpsName]
  {
    seq(|Configs()|, i requires 0 <= i < |Configs()| => Configs()[i].0)
  }

  /** No name is listed twice. */
  lemma NamesDistinct()
    ensures forall i, j :: 0 <= i < j < |ListAvailableConfigs()| ==> ListAvailableConfigs()[i] != ListAvailableConfigs()[j]
  {
    var names := ListAvailableConfigs();
    assert names[0][0] == 'p' && names[1][0] == 'f' && names[2][0] == 'f' && names[3][0] == 'd' && names[4][0] == 'd';
    assert names[1][1] == 'r' && names[2][1] == 'u';
    assert names[3][1] == 'a' && names[4][1] == 'e';
  }

  /** Each listed name retrieves its own configuration. */
  lemma {:induction false} KnownNameGetsOwnConfig(i: nat)
    requires i < |Configs()|
    ensures GetInterviewConfig(ListAvailableConfigs()[i]) == Configs()[i].1
  {
    NamesDistinct();
    var entries := Configs();
    var name := entries[i].0;
    assert forall j :: 0 <= j < i ==> entries[j].0 != name;
    LookupFirst(entries, name, i);
  }

  /** A lookup finds the first entry with the name. */
  lemma {:induction false} LookupFirst(entries: seq<(string, InterviewConfig)>, name: string, i: nat)
    requires i < |entries| && entries[i].0 == name
    requires forall j :: 0 <= j < i ==> entries[j].0 != name
    ensures Lookup(entries, name) == Some(entries[i].1)
  {
    if i > 0 {
      LookupFirst(entries[1..], name, i - 1);
    }
  }

  /** A name that is not listed falls back to the Python developer configuration. */
  lemma UnknownNameGetsDefault(name: string)
    requires name !in ListAvailableConfigs()
    ensures GetInterviewConfig(name) == PythonConfig
  {
    var entries := Configs();
    assert forall i :: 0 <= i < |entries| ==> entries[i].0 == ListAvailableConfigs()[i];
  }

  /** A configuration is fully described: position, company, seven competencies and a description. */
  predicate Complete(c: InterviewConfig)
  {
    c.position != "" && c.company != "" && |c.competencies| == 7 && c.jobDescription != ""
  }

  /** Every configuration is complete, so every lookup returns a complete one. */
  lemma AllComplete(name: string)
    ensures forall i :: 0 <= i < |Configs()| ==> Complete(Configs()[i].1)
    ensures Complete(GetInterviewConfig(name))
  {
    var entries := Configs();
    assert Complete(PythonConfig) && Complete(FrontendConfig) && Complete(FullstackConfig);
    assert Complete(DataScienceConfig) && Complete(DevOpsConfig);
    assert forall i :: 0 <= i < |entries| ==> entries[i].1 in {PythonConfig, FrontendConfig, FullstackConfig, DataScienceConfig, DevOpsConfig};
  }
}
